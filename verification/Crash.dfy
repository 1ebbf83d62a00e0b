/** A settled generation ended live and one ended after a crash: what the journal says of each. */
module Crash {
  import opened Types
  import opened Journal
  import opened JournalLaws
  import opened State
  import opened Settle
  import opened Finishing
  import opened Stopping
  import opened Effects

  /** The run has its terminal packet prepared and only its finish to journal. */
  predicate Prepared(s: State, l: Lease) {
    ExactLease(s, l) && s.store.durable[l.id].phase == Settling && s.store.durable[l.id].prepared.Some? && !s.runs.live[l.id].finalRecovery
  }

  /** The live finish, with whatever the run says of itself. */
  function Lived(s: State, l: Lease, finish: Finish, now: nat): State {
    FinishGeneration(s, l, finish, false, now, true)
  }

  /** A crash, and the finish of the run it lost. */
  ghost function Crashed(s: State, l: Lease, pending: map<Id, set<nat>>, now: nat): State {
    LoseRuntime(Restart(s, pending), l, now, true)
  }

  /** The finish of `l` is the next event. */
  predicate Ends(s: State, n: State, l: Lease) {
    && |n.store.journal| > |s.store.journal| && n.store.journal[..|s.store.journal|] == s.store.journal
    && var e := n.store.journal[|s.store.journal|]; e.RunFinished? && e.id == l.id && e.generation == l.generation
  }

  /** Both journal the finish with the same outcome, disposition and reason, and report the same packet to the owner. */
  predicate EndAlike(s: State, a: State, b: State, l: Lease) {
    && Ends(s, a, l) && Ends(s, b, l)
    && var e, f := a.store.journal[|s.store.journal|], b.store.journal[|s.store.journal|];
    && e.outcome.status == f.outcome.status && e.outcome.reason == f.outcome.reason && e.disposition == f.disposition
    && l.id in a.store.durable && l.id in b.store.durable && a.store.durable[l.id].queue == b.store.durable[l.id].queue
  }

  lemma LivedAppends(s: State, l: Lease, finish: Finish, now: nat)
    requires Prepared(s, l)
    ensures var batch := SettlingEvents(l, s.store.durable[l.id].prepared.value, finish, if finish.endedAt != 0 then finish.endedAt else now);
            Lived(s, l, finish, now).store.journal == if Append(s, batch, true).Some? then s.store.journal + batch else s.store.journal
    ensures var batch := SettlingEvents(l, s.store.durable[l.id].prepared.value, finish, if finish.endedAt != 0 then finish.endedAt else now);
            Append(s, batch, true).Some? ==> Lived(s, l, finish, now).store == Append(s, batch, true).value.store
  {
    hide SettlingEvents, Append, ReleaseGeneration, OnlyRunEnds, SteersReleased, EvidenceGrows, SameWaiters, OnlyGeneration, FinalizationReady;
  }

  lemma CrashedAppends(s: State, l: Lease, pending: map<Id, set<nat>>, now: nat)
    requires Prepared(s, l)
    ensures var p := s.store.durable[l.id].prepared.value;
            var at := PreparedFinish(p).endedAt;
            var batch := SettlingEvents(l, p, NO_FINISH, if at != 0 then at else now);
            && Crashed(s, l, pending, now).store.journal
               == (match ApplyBatch(s.store.durable, |s.store.journal|, batch) case Some(_) => s.store.journal + batch case None => s.store.journal)
            && (ApplyBatch(s.store.durable, |s.store.journal|, batch).Some? ==>
                  Crashed(s, l, pending, now).store.durable == ApplyBatch(s.store.durable, |s.store.journal|, batch).value)
  {
    hide SettlingEvents, ApplyBatch, RestoredStop, OwedWakes, DerivedIndex;
    assert l in OpenLeases(s.store.durable);
  }

  /** A report completes; the missing-terminal packet fails. Nothing the run says changes that. */
  function FinalEvent(l: Lease, p: Packet, at: nat): Event {
    RunFinished(l.id, l.generation,
                if p.kind == ReportedPacket then Outcome(Completed, NoReason, at, None) else Outcome(Failed, MissingTerminal, at, None),
                if p.kind == ReportedPacket then ReportedRun else TerminalErrorRun, Some(ReportId(l)), None)
  }

  lemma SettlesToVerdict(l: Lease, p: Packet, finish: Finish, at: nat)
    requires p.kind == ReportedPacket || p == MISSING
    ensures SettlingEvents(l, p, finish, at) == [FinalEvent(l, p, at)]
  {
  }

  lemma NotQueuedYet(d: Durable, n: nat, l: Lease)
    requires WellFormed(d, n) && OpenRun(d, l.id, l.generation)
    ensures !Queued(d[l.id].queue, ReportId(l))
  {
    var a := d[l.id];
    assert AggregateOk(l.id, a, n);
    forall k | 0 <= k < |a.queue| ensures a.queue[k].did != ReportId(l) { assert DidOk(l.id, a, n, a.queue[k].did); }
  }

  lemma VerdictLands(d: Durable, n: nat, l: Lease, at: nat)
    requires WellFormed(d, n) && OpenRun(d, l.id, l.generation) && d[l.id].phase == Settling && d[l.id].prepared.Some?
    requires d[l.id].prepared.value.kind == ReportedPacket || d[l.id].prepared.value == MISSING
    ensures var p := d[l.id].prepared.value; var r := ApplyBatch(d, n, [FinalEvent(l, p, at)]);
            r.Some? && l.id in r.value && r.value[l.id].queue == d[l.id].queue + [Pending(ReportId(l), l.generation, d[l.id].parent, p)]
  {
    NotQueuedYet(d, n, l);
    hide WellFormed, Queued;
    OneEvent(d, n, FinalEvent(l, d[l.id].prepared.value, at));
  }

  lemma LivedVerdict(s: State, l: Lease, finish: Finish, now: nat)
    requires JournalInv(s.store.journal, s.store.durable) && Prepared(s, l)
    requires var p := s.store.durable[l.id].prepared.value; p.kind == ReportedPacket || p == MISSING
    ensures var p, n := s.store.durable[l.id].prepared.value, Lived(s, l, finish, now);
            && n.store.journal == s.store.journal + [FinalEvent(l, p, if finish.endedAt != 0 then finish.endedAt else now)] && l.id in n.store.durable
            && n.store.durable[l.id].queue == s.store.durable[l.id].queue + [Pending(ReportId(l), l.generation, s.store.durable[l.id].parent, p)]
  {
    hide Lived, SettlingEvents, ApplyBatch, FinalEvent, WellFormed, Fold;
    var at := if finish.endedAt != 0 then finish.endedAt else now;
    LivedAppends(s, l, finish, now);
    SettlesToVerdict(l, s.store.durable[l.id].prepared.value, finish, at);
    VerdictLands(s.store.durable, |s.store.journal|, l, at);
  }

  lemma CrashedVerdict(s: State, l: Lease, pending: map<Id, set<nat>>, now: nat)
    requires JournalInv(s.store.journal, s.store.durable) && Prepared(s, l)
    requires var p := s.store.durable[l.id].prepared.value; p.kind == ReportedPacket || p == MISSING
    ensures var p, n := s.store.durable[l.id].prepared.value, Crashed(s, l, pending, now);
            && n.store.journal == s.store.journal + [FinalEvent(l, p, if PreparedFinish(p).endedAt != 0 then PreparedFinish(p).endedAt else now)]
            && l.id in n.store.durable
            && n.store.durable[l.id].queue == s.store.durable[l.id].queue + [Pending(ReportId(l), l.generation, s.store.durable[l.id].parent, p)]
  {
    hide Crashed, SettlingEvents, ApplyBatch, FinalEvent, PreparedFinish, WellFormed, Fold;
    var p := s.store.durable[l.id].prepared.value;
    var at := if PreparedFinish(p).endedAt != 0 then PreparedFinish(p).endedAt else now;
    CrashedAppends(s, l, pending, now);
    SettlesToVerdict(l, p, NO_FINISH, at);
    VerdictLands(s.store.durable, |s.store.journal|, l, at);
  }

  lemma VerdictsAlike(s: State, a: State, b: State, l: Lease, p: Packet, at: nat, at': nat)
    requires a.store.journal == s.store.journal + [FinalEvent(l, p, at)] && b.store.journal == s.store.journal + [FinalEvent(l, p, at')]
    requires l.id in a.store.durable && l.id in b.store.durable && a.store.durable[l.id].queue == b.store.durable[l.id].queue
    ensures EndAlike(s, a, b, l)
  {
  }

  /** A run that says it was stopped. */
  const SAYS_STOPPED := FinishOf(Stopped, TerminalErrorRun, NoReason)

  /** What a run says of itself overrides an ordinary error packet: live it ends as it says, after a crash as the packet says. */
  lemma SaidEndsApart(s: State, l: Lease, pending: map<Id, set<nat>>, now: nat, later: nat)
    requires Prepared(s, l) && s.store.durable[l.id].prepared.value.kind == TerminalErrorPacket && s.store.durable[l.id].prepared.value != MISSING
    ensures !EndAlike(s, Lived(s, l, SAYS_STOPPED, now), Crashed(s, l, pending, later), l)
  {
    hide Lived, Crashed, ApplyBatch;
    var p := s.store.durable[l.id].prepared.value;
    LivedAppends(s, l, SAYS_STOPPED, now);
    CrashedAppends(s, l, pending, later);
    SaysStopped(l, p, now);
    PacketSays(l, p, if PreparedFinish(p).endedAt != 0 then PreparedFinish(p).endedAt else later);
    hide SettlingEvents, PreparedFinish;
  }

  lemma SaysStopped(l: Lease, p: Packet, at: nat)
    requires p.kind == TerminalErrorPacket && p != MISSING
    ensures var batch := SettlingEvents(l, p, SAYS_STOPPED, at); |batch| == 1 && batch[0].RunFinished? && batch[0].outcome.status == Stopped
  {
  }

  lemma PacketSays(l: Lease, p: Packet, at: nat)
    ensures var batch := SettlingEvents(l, p, NO_FINISH, at); |batch| >= 1 && batch[0].RunFinished? && batch[0].outcome.status != Stopped
  {
  }

  /** However the run ends live and however much later a crash ends it, the journal and the owner are told the same, exactly when
      the prepared packet is a report or the missing-terminal packet. */
  lemma CrashChangesNothingExactly(s: State, l: Lease)
    requires JournalInv(s.store.journal, s.store.durable) && Prepared(s, l) && ValidPacket(s.store.durable[l.id].prepared.value)
    ensures (forall finish, now, pending, later :: EndAlike(s, Lived(s, l, finish, now), Crashed(s, l, pending, later), l))
            <==> (s.store.durable[l.id].prepared.value.kind == ReportedPacket || s.store.durable[l.id].prepared.value == MISSING)
  {
    hide Lived, Crashed, EndAlike, JournalInv, PreparedFinish;
    var p := s.store.durable[l.id].prepared.value;
    if p.kind == ReportedPacket || p == MISSING {
      forall finish: Finish, now: nat, pending: map<Id, set<nat>>, later: nat
        ensures EndAlike(s, Lived(s, l, finish, now), Crashed(s, l, pending, later), l)
      {
        LivedVerdict(s, l, finish, now);
        CrashedVerdict(s, l, pending, later);
        VerdictsAlike(s, Lived(s, l, finish, now), Crashed(s, l, pending, later), l, p, if finish.endedAt != 0 then finish.endedAt else now,
                      if PreparedFinish(p).endedAt != 0 then PreparedFinish(p).endedAt else later);
      }
    } else {
      SaidEndsApart(s, l, map[], 0, 0);
    }
  }
}
