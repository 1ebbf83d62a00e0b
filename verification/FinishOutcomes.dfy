/** What ending a run leaves behind: claims, latches, packets and evidence, operation by operation. */
module FinishOutcomes {
  import opened Types
  import opened Journal
  import opened State
  import opened Settle
  import opened Finishing
  import opened Effects

  // ---- The release ----

  /** The delegate's runtime once its run is over: still resident, unbound, free of latches, keeping only carried steers. */
  predicate Freed(was: Live, live: Live) {
    && was.binding.Some? && live.binding.None? && live.runtime == (if was.binding.value.runtime != 0 then was.binding.value.runtime else was.runtime)
    && live.steers == CarriedSteers(was.steers) && live.waiters == was.waiters
    && !live.recovery && !live.finalRecovery && !live.runnerPending && live.quiet == 0
  }

  /** A claim table without the claims of `id` that no stop tracks. */
  predicate SteeringLeft(s: State, n: State, id: Id) {
    && n.tables.steering.Keys <= s.tables.steering.Keys && (forall t | t in n.tables.steering :: n.tables.steering[t] == s.tables.steering[t])
    && forall t | t in s.tables.steering ::
         t in n.tables.steering <==> s.tables.steering[t].lease.id != id || (s.stop.Some? && t in s.stop.value.steering)
  }

  predicate ModelsLeft(s: State, n: State, id: Id) {
    && n.tables.models.Keys <= s.tables.models.Keys && (forall t | t in n.tables.models :: n.tables.models[t] == s.tables.models[t])
    && forall t | t in s.tables.models ::
         t in n.tables.models <==> s.tables.models[t].lease.id != id || (s.stop.Some? && t in s.stop.value.models)
  }

  predicate SettlementsLeft(s: State, n: State, id: Id) {
    && n.tables.settlements.Keys <= s.tables.settlements.Keys && (forall t | t in n.tables.settlements :: n.tables.settlements[t] == s.tables.settlements[t])
    && forall t | t in s.tables.settlements :: t in n.tables.settlements <==> s.tables.settlements[t].lease.id != id
  }

  /** Everything the run held goes together, and nobody else's. */
  lemma ReleaseLeaves(s: State, l: Lease)
    requires l.id in s.store.durable && LeaseAt(s.runs.live, l.id) == Some(l)
    ensures var n := ReleaseGeneration(s, l);
            && n.runs.live.Keys == s.runs.live.Keys && Freed(s.runs.live[l.id], n.runs.live[l.id])
            && (forall i | i in s.runs.live && i != l.id :: n.runs.live[i] == s.runs.live[i])
            && n.runs.inputs == s.runs.inputs - {s.runs.live[l.id].binding.value.input}
            && SteeringLeft(s, n, l.id) && ModelsLeft(s, n, l.id) && SettlementsLeft(s, n, l.id)
            && (s.stop.Some? ==> n.stop.Some? && n.stop.value.active == s.stop.value.active - {l})
  {
    hide SteersReleased, EvidenceGrows, SameWaiters, CarriedSteers, Down;
  }

  /** Carried steers outlive their generation in the order they were admitted. */
  lemma {:induction false} CarriedInOrder(a: seq<Steer>, b: seq<Steer>)
    ensures CarriedSteers(a + b) == CarriedSteers(a) + CarriedSteers(b)
  {
    if b == [] {
      assert a + b == a;
    } else {
      CarriedInOrder(a, b[..|b| - 1]);
      assert (a + b)[..|a + b| - 1] == a + b[..|b| - 1];
    }
  }

  lemma CarriedOne(st: Steer)
    ensures CarriedSteers([st]) == if st.carries then [st] else []
  {
    assert [st][..0] == [];
  }

  /** A finish the store refuses leaves everything but the latch it was asked for. */
  lemma RefusedFinishLatches(s: State, l: Lease, batch: seq<Event>, storeOk: bool, latch: Latch)
    requires ExactLease(s, l) && Append(s, batch, storeOk).None?
    ensures var n, live := FinishWith(s, l, batch, storeOk, latch), s.runs.live[l.id];
            && n == s.(runs := s.runs.(live := n.runs.live)) && n.runs.live.Keys == s.runs.live.Keys
            && (forall i | i in s.runs.live && i != l.id :: n.runs.live[i] == s.runs.live[i])
            && n.runs.live[l.id] == live.(recovery := live.recovery || latch != LatchNothing, finalRecovery := live.finalRecovery || latch == LatchTriple,
                                          runnerPending := live.runnerPending || latch == LatchTriple)
  {
    hide Append, SteersReleased, EvidenceGrows, SameWaiters, OnlyGeneration, OnlyRunEnds;
  }

  lemma LandedFinishReleases(s: State, l: Lease, batch: seq<Event>, storeOk: bool, latch: Latch)
    requires ExactLease(s, l) && Append(s, batch, storeOk).Some?
    ensures FinishWith(s, l, batch, storeOk, latch) == ReleaseGeneration(Append(s, batch, storeOk).value, l)
  {
    hide Append, ReleaseGeneration, SteersReleased, EvidenceGrows, SameWaiters, OnlyGeneration, OnlyRunEnds;
  }

  // ---- Which finish ----

  /** A quiet write in flight, the run's own or one a settlement of it waits for, holds a finish back. */
  predicate QuietWrite(s: State, l: Lease) {
    || (l.id in s.runs.live && s.runs.live[l.id].quiet != 0)
    || exists t | t in s.tables.settlements :: s.tables.settlements[t].lease == l && s.tables.settlements[t].joined in s.tables.quiets
  }

  /** A run ends by the phase it is in: stopped under a stop, as its prepared packet, or as it says itself. It waits for quiet writes
      unless it is settling, for recovery always, and never ends without action unless that was authorized. */
  lemma FinishCases(s: State, l: Lease, finish: Finish, authorized: bool, now: nat, storeOk: bool)
    ensures var n := FinishGeneration(s, l, finish, authorized, now, storeOk);
            if !ExactLease(s, l) || s.runs.live[l.id].finalRecovery then n == s
            else
              var a, at := s.store.durable[l.id], if finish.endedAt != 0 then finish.endedAt else now;
              if a.phase == Stopping then
                n == if QuietWrite(s, l) then s else FinishWith(s, l, [StoppedFinishEvent(l, finish.packet, at)], storeOk, LatchTriple)
              else if a.phase == Running then
                n == if QuietWrite(s, l) || (finish.disposition == Some(CompletedNoAction) && !authorized) then s
                     else FinishWith(s, l, RunningEvents(l, finish, at), storeOk, LatchTriple)
              else if a.phase == Settling && a.prepared.Some? then n == FinishWith(s, l, SettlingEvents(l, a.prepared.value, finish, at), storeOk, LatchTriple)
              else n == s
  {
    hide FinishWith, StoppedFinishEvent, RunningEvents, SettlingEvents, OnlyRunEnds, SteersReleased, EvidenceGrows, SameWaiters, OnlyGeneration;
  }

  /** A run that exhausted a budget it cannot resume from is closed for good in the same batch, and only then. */
  lemma ExhaustionCloses(l: Lease, status: Status, disposition: Disposition, reason: Reason, endedAt: nat, did: Option<DeliveryId>, meta: Finish)
    ensures var batch := FinishEvents(l, status, disposition, reason, endedAt, did, meta);
            && batch != [] && batch[0].RunFinished? && batch[0].id == l.id && batch[0].generation == l.generation
            && batch[0].outcome == Outcome(status, reason, endedAt, if status == Exhausted then meta.exhaustion else None)
            && batch[0].disposition == disposition && batch[0].did == did && batch[0].finishPacket.None?
            && (ResumabilityClosed(l.id) in batch <==> status == Exhausted && meta.exhaustion.Some? && !meta.exhaustion.value.resumable)
            && (forall e | e in batch :: e == batch[0] || e == ResumabilityClosed(l.id)) && |batch| <= 2
  {
  }

  /** What a run's own finish says: its packet or one of its reason, a completion without a packet being a missing terminal. */
  lemma RunningFinishSays(l: Lease, finish: Finish, endedAt: nat)
    requires finish.disposition != Some(CompletedNoAction)
    ensures var missing := finish.outcome == Some(Completed) && finish.packet.None?;
            var packet := if missing then MISSING else if finish.packet.Some? then finish.packet.value else ReasonPacket(finish.reason);
            var status := if missing then Failed else if finish.outcome.Some? then finish.outcome.value else Failed;
            RunningEvents(l, finish, endedAt) == [TerminalPrepared(l.id, l.generation, packet)]
              + FinishEvents(l, status, if finish.disposition.Some? then finish.disposition.value
                                        else if packet.kind == ReportedPacket then ReportedRun else TerminalErrorRun,
                             if missing then MissingTerminal else finish.reason, endedAt, Some(Report(l.id, l.generation)), finish)
  {
    hide FinishEvents;
  }

  lemma NoActionSays(l: Lease, finish: Finish, endedAt: nat)
    requires finish.disposition == Some(CompletedNoAction) && finish.exhaustion.None?
    ensures RunningEvents(l, finish, endedAt) ==
            [RunFinished(l.id, l.generation, Outcome(if finish.outcome.Some? then finish.outcome.value else Completed, finish.reason, endedAt, None),
                         CompletedNoAction, None, None)]
  {
  }

  // ---- Settlement ----

  /** Whoever asks for an ordinary finalization waits for every steer, pending or being written; one finalization at a time. A stop that
      already ended the run makes an ordinary one terminal. */
  lemma FinalizationBegun(s: State, l: Lease, mode: Mode, runErrorKnown: bool, runFailed: bool)
    ensures var n := BeginFinalization(s, l, mode, runErrorKnown, runFailed);
            var terminal := mode == Terminal && TerminalAdmitted(s, l);
            var ordinary := mode == Ordinary && Admitted(s, l);
            var promoted := mode == Ordinary && !Admitted(s, l) && PromotedByStop(s, l);
            var steered := SteersAt(s.runs.live, l.id) != [] || exists t | t in s.tables.steering :: s.tables.steering[t].lease == l;
            if (terminal || promoted || (ordinary && !steered)) && (forall t | t in s.tables.settlements :: s.tables.settlements[t].lease != l) && l.id in s.runs.live
            then && n.nextToken == s.nextToken + 1
                 && n.tables.settlements == s.tables.settlements[n.nextToken :=
                      SettlementClaim(l, if ordinary then Ordinary else Terminal, s.runs.live[l.id].quiet, runErrorKnown, runFailed)]
                 && (s.stop.Some? ==>
                       && n.stop.Some?
                       && n.stop.value.settlements ==
                          s.stop.value.settlements + (if l in s.stop.value.active && l.id in s.stop.value.members then {n.nextToken} else {}))
            else n == s
  {
    hide Fenced, Reclaimed;
  }

  /** A stop promotes the finalization of a run it tracks, that is ready and not in recovery; a terminal one needs only the latter. */
  lemma PromotionIsExact(s: State, l: Lease)
    ensures PromotedByStop(s, l) <==>
            && TerminalAdmitted(s, l) && s.stop.Some? && s.store.durable[l.id].phase == Stopping
            && s.store.durable[l.id].pendingStop == s.stop.value.seqNo && l in s.stop.value.active && l.id in s.stop.value.members
    ensures TerminalAdmitted(s, l) <==>
            && ExactLease(s, l) && s.store.durable[l.id].phase in {Running, Stopping}
            && !s.runs.live[l.id].recovery && s.runs.live[l.id].binding.value.ready
  {
  }

  /** The claim's own quiet write is done, and its run is still the one bound. */
  predicate Settleable(s: State, t: Token) {
    && t in s.tables.settlements && s.tables.settlements[t].mode == Ordinary && s.tables.settlements[t].joined !in s.tables.quiets
    && Admitted(s, s.tables.settlements[t].lease) && s.runs.live[s.tables.settlements[t].lease.id].quiet == 0
  }

  /** Settling prepares exactly the packet supplied, or the missing-terminal packet when none was: the run settles and its claim goes.
      When the store refuses, or the packet is no terminal one, the run is latched and the claim stays. */
  lemma SettlementPrepares(s: State, t: Token, packet: Option<Packet>, storeOk: bool)
    ensures var n := CompleteSettlement(s, t, packet, storeOk);
            if !Settleable(s, t) then n == s
            else
              var l := s.tables.settlements[t].lease;
              && l.id in s.store.durable && l.id in n.store.durable
              && if storeOk && (packet.Some? ==> ValidPacket(packet.value))
                 then && n.store.durable == s.store.durable[l.id := s.store.durable[l.id].(phase := Settling, prepared := n.store.durable[l.id].prepared)]
                      && n.store.durable[l.id].prepared == Some(if packet.Some? then packet.value else MISSING)
                      && n.tables.settlements == s.tables.settlements - {t} && n.runs.live == s.runs.live
                 else n.store == s.store && n.tables == s.tables && n.stop == s.stop && l.id in n.runs.live
                      && n.runs.live[l.id] == s.runs.live[l.id].(recovery := true, finalRecovery := true, runnerPending := true)
  {
    if Settleable(s, t) {
      var l := s.tables.settlements[t].lease;
      OneEvent(s.store.durable, |s.store.journal|, TerminalPrepared(l.id, l.generation, if packet.Some? then packet.value else MISSING));
    }
    hide Fenced, Reclaimed, ApplyBatch, SameSteers, EvidenceGrows, SameWaiters, SameLeases, OnlySettlements, UntrackSettlement;
  }

  /** What a settled run's finish leaves: the packet it prepared, queued to the owner behind everything else. */
  lemma SettledFinishReports(d: Durable, n: nat, l: Lease, finish: Finish, endedAt: nat, d': Durable)
    requires l.id in d && d[l.id].phase == Settling && d[l.id].prepared.Some?
    requires ApplyBatch(d, n, SettlingEvents(l, d[l.id].prepared.value, finish, endedAt)) == Some(d')
    ensures && l.id in d' && !d'[l.id].open
            && d'[l.id].queue == d[l.id].queue + [Pending(Report(l.id, l.generation), l.generation, d[l.id].parent, d[l.id].prepared.value)]
  {
    var batch := SettlingEvents(l, d[l.id].prepared.value, finish, endedAt);
    assert batch[0].RunFinished? && batch[0].did == Some(Report(l.id, l.generation)) && batch[0].disposition != CompletedNoAction;
    if |batch| == 1 {
      assert batch == [batch[0]];
      OneEvent(d, n, batch[0]);
    } else {
      assert batch == [batch[0], ResumabilityClosed(l.id)];
      TwoEvents(d, n, batch[0], ResumabilityClosed(l.id));
    }
    hide ApplyBatch, SettlingEvents;
  }

  /** From the settlement to the finish: the owner is told exactly the packet the run supplied, or that its terminal is missing. */
  lemma SettledPacketReachesOwner(s: State, t: Token, packet: Option<Packet>, finish: Finish, now: nat)
    requires (packet.Some? ==> ValidPacket(packet.value)) && Settleable(s, t)
    ensures var l := s.tables.settlements[t].lease;
            var settled := CompleteSettlement(s, t, packet, true); var done := FinishGeneration(settled, l, finish, false, now, true);
            && l.id in s.store.durable
            && (done.store != settled.store ==>
                  && l.id in done.store.durable
                  && done.store.durable[l.id].queue == s.store.durable[l.id].queue
                       + [Pending(Report(l.id, l.generation), l.generation, s.store.durable[l.id].parent, if packet.Some? then packet.value else MISSING)])
  {
    var l, settled := s.tables.settlements[t].lease, CompleteSettlement(s, t, packet, true);
    SettlementPrepares(s, t, packet, true);
    hide CompleteSettlement, Settleable;
    assert settled.store.durable[l.id].queue == s.store.durable[l.id].queue && settled.store.durable[l.id].parent == s.store.durable[l.id].parent;
    FinishCases(settled, l, finish, false, now, true);
    var done := FinishGeneration(settled, l, finish, false, now, true);
    hide FinishGeneration;
    if done.store != settled.store {
      var batch := SettlingEvents(l, settled.store.durable[l.id].prepared.value, finish, if finish.endedAt != 0 then finish.endedAt else now);
      FinishStores(settled, l, batch, done);
      SettledFinishReports(settled.store.durable, |settled.store.journal|, l, finish, if finish.endedAt != 0 then finish.endedAt else now, done.store.durable);
    }
  }

  lemma FinishStores(s: State, l: Lease, batch: seq<Event>, n: State)
    requires ExactLease(s, l) && n == FinishWith(s, l, batch, true, LatchTriple) && n.store != s.store
    ensures ApplyBatch(s.store.durable, |s.store.journal|, batch) == Some(n.store.durable)
  {
    hide ApplyBatch, ReleaseGeneration, SteersReleased, EvidenceGrows, SameWaiters, OnlyGeneration, OnlyRunEnds;
  }

  // ---- Ending without action ----

  /** A fallback is retained exactly for a claim that may still end without action; nothing else changes. */
  lemma FallbackRetained(s: State, t: Token, fallback: Finish)
    ensures var n := PrepareNoAction(s, t, fallback);
            if NoActionEligible(s, t, false)
            then var id := s.tables.settlements[t].lease.id;
                 && n.runs.live.Keys == s.runs.live.Keys && (forall i | i in s.runs.live && i != id :: n.runs.live[i] == s.runs.live[i])
                 && n.runs.live[id] == s.runs.live[id].(binding := Some(s.runs.live[id].binding.value.(evidence := s.runs.live[id].binding.value.evidence.(fallback := Some(fallback)))))
            else n == s
  {
    hide SameSteers, EvidenceGrows, SameWaiters, SameLeases;
  }

  /** Everything an attention run that ends without action has shown. */
  lemma EligibilityIsExact(s: State, t: Token, allowStopping: bool)
    ensures NoActionEligible(s, t, allowStopping) <==>
            && t in s.tables.settlements && s.tables.settlements[t].mode == Ordinary && s.tables.settlements[t].joined !in s.tables.quiets
            && s.tables.settlements[t].runErrorKnown && !s.tables.settlements[t].runFailed
            && ExactLease(s, s.tables.settlements[t].lease)
            && var l := s.tables.settlements[t].lease; var a, live := s.store.durable[l.id], s.runs.live[l.id];
            && live.quiet == 0 && !live.recovery && live.binding.value.ready
            && a.trigger == AttentionTrigger && a.prepared.None? && (a.phase == Running || (allowStopping && a.phase == Stopping))
            && live.binding.value.evidence.noAction && !live.binding.value.evidence.reportRequired && !live.binding.value.evidence.terminalSeen
  {
  }

  /** The no-action finish consumes the attention, at the time its fallback names; under a stop the fallback itself is finished. */
  lemma NoActionFinishes(s: State, t: Token, now: nat, storeOk: bool)
    ensures var n := FinishNoAction(s, t, now, storeOk);
            if !NoActionEligible(s, t, true) || s.runs.live[s.tables.settlements[t].lease.id].binding.value.evidence.fallback.None? then n == s
            else
              var l := s.tables.settlements[t].lease;
              var fallback := s.runs.live[l.id].binding.value.evidence.fallback.value;
              n == FinishGeneration(s, l, if s.store.durable[l.id].phase == Stopping then fallback
                                          else Finish(Some(Completed), Some(CompletedNoAction), AttentionConsumed, "", None, fallback.endedAt, None), true, now, storeOk)
  {
    hide FinishGeneration, OnlyRunEnds, SteersReleased, EvidenceGrows, SameWaiters, OnlyGeneration;
  }

  // ---- Recovery and evidence ----

  /** The runtime of one delegate changes as given, and no other. */
  predicate OnlyLive(s: State, n: State, id: Id, live: Live) {
    n == s.(runs := s.runs.(live := n.runs.live)) && id in s.runs.live && n.runs.live == s.runs.live[id := live]
  }

  lemma RecoveryRequired(s: State, t: Token)
    ensures var n := RequireRecovery(s, t);
            if t in s.tables.settlements && ExactLease(s, s.tables.settlements[t].lease)
            then var id := s.tables.settlements[t].lease.id;
                 OnlyLive(s, n, id, s.runs.live[id].(recovery := true, finalRecovery := true, runnerPending := true))
            else n == s
  {
    hide SameSteers, EvidenceGrows, SameWaiters, SameLeases;
  }

  /** Only the runner's own runtime reports that it is done. */
  lemma RunnerQuiesced(s: State, l: Lease, runtime: Runtime)
    ensures var n := ReportQuiesced(s, l, runtime);
            if ExactLease(s, l) && s.runs.live[l.id].binding.value.runtime == runtime
            then OnlyLive(s, n, l.id, s.runs.live[l.id].(runnerPending := false)) else n == s
  {
    hide SameSteers, EvidenceGrows, SameWaiters, SameLeases;
  }

  function Shown(live: Live, e: Evidence): Live
    requires live.binding.Some?
  {
    live.(binding := Some(live.binding.value.(evidence := e)))
  }

  /** Report work and a seen terminal are recorded whatever came before; a no-action is recorded only while neither was. */
  lemma EvidenceRecorded(s: State, l: Lease)
    ensures if !ExactLease(s, l) then AdmitReportWork(s, l) == s && RecordTerminalSeen(s, l) == s && RecordNoAction(s, l) == s
            else
              var live := s.runs.live[l.id]; var e := live.binding.value.evidence;
              && OnlyLive(s, AdmitReportWork(s, l), l.id, Shown(live, e.(reportRequired := true)))
              && OnlyLive(s, RecordTerminalSeen(s, l), l.id, Shown(live, e.(terminalSeen := true)))
              && (if e.reportRequired || e.terminalSeen then RecordNoAction(s, l) == s
                  else OnlyLive(s, RecordNoAction(s, l), l.id, Shown(live, e.(noAction := true))))
  {
    hide SameSteers, EvidenceGrows, SameWaiters, SameLeases;
  }

  // ---- Lost runs ----

  /** A run lost in a restart ends as lost, as its prepared packet, or as stopped, by the phase it was lost in. */
  lemma LostRunSays(l: Lease, a: Aggregate, now: nat)
    ensures a.phase == Running ==>
              LostEvents(l, a, now) == Some([TerminalPrepared(l.id, l.generation, LOST),
                RunFinished(l.id, l.generation, Outcome(Failed, RuntimeLost, now, None), TerminalErrorRun, Some(Report(l.id, l.generation)), None)])
    ensures a.phase == Settling && a.prepared.Some? ==>
              var at := PreparedFinish(a.prepared.value).endedAt;
              LostEvents(l, a, now) == Some(SettlingEvents(l, a.prepared.value, NO_FINISH, if at != 0 then at else now))
    ensures a.phase == Stopping ==> LostEvents(l, a, now) == Some([StoppedFinishEvent(l, None, now)])
    ensures LostEvents(l, a, now).None? <==> a.phase == Idle || a.phase == Closed || (a.phase == Settling && a.prepared.None?)
  {
    hide SettlingEvents, StoppedFinishEvent;
  }

  /** A stop's finish says so whatever the run said, and keeps what the run reported as an error. */
  lemma StoppedFinishSays(l: Lease, packet: Option<Packet>, endedAt: nat)
    ensures StoppedFinishEvent(l, packet, endedAt) ==
            RunFinished(l.id, l.generation, Outcome(Stopped, StoppedByParent, endedAt, None), TerminalErrorRun, Some(Report(l.id, l.generation)),
                        Some(StoppedPacket(packet)))
    ensures packet.Some? && packet.value.kind != ReportedPacket ==> StoppedPacket(packet) == packet.value
  {
  }
}
