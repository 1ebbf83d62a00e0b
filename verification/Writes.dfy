/** What each step may write to the journal. */
module Writes {
  import opened Types
  import opened Tree
  import opened Journal
  import opened JournalLaws
  import opened State
  import opened Settle
  import opened Finishing
  import opened Starting
  import opened Delivering
  import opened Stopping
  import opened Effects
  import opened StartKept

  // ---- What a batch may say ----

  predicate StoppedByStop(e: Event)
    requires e.RunFinished?
  {
    e.outcome.status == Stopped && e.outcome.reason == StoppedByParent
  }

  /** An event that finishes a stopping run carries the stopped outcome. */
  predicate StopWinsAt(d: Durable, e: Event) {
    e.RunFinished? && e.id in d && d[e.id].phase == Stopping ==> StoppedByStop(e)
  }

  ghost predicate StopWins(d: Durable, n: nat, batch: seq<Event>) {
    forall k | 0 <= k < |batch| :: ApplyBatch(d, n, batch[..k]).Some? ==> StopWinsAt(ApplyBatch(d, n, batch[..k]).value, batch[k])
  }

  predicate NoAction(e: Event) {
    e.RunFinished? && e.disposition == CompletedNoAction
  }

  /** The stop wins, and nothing ends without a report or completes a stop. */
  ghost predicate Lawful(d: Durable, n: nat, batch: seq<Event>) {
    StopWins(d, n, batch) && forall k | 0 <= k < |batch| :: !NoAction(batch[k]) && !batch[k].StopCompleted?
  }

  lemma OneEventWins(d: Durable, n: nat, e: Event)
    requires StopWinsAt(d, e)
    ensures StopWins(d, n, [e])
  {
    assert [e][..0] == [];
  }

  /** A finish and a closure, of a run that is settling or already stopped by the finish. */
  lemma PairWins(d: Durable, n: nat, e: Event, f: Event)
    requires StopWinsAt(d, e) && !f.RunFinished?
    ensures StopWins(d, n, [e, f])
  {
    assert [e, f][..0] == [] && [e, f][..1] == [e];
  }

  /** A prepared packet settles the run, so the finish behind it finds no stop. */
  lemma PreparedWins(d: Durable, n: nat, e: Event, f: Event, rest: seq<Event>)
    requires e.TerminalPrepared? && f.RunFinished? && f.id == e.id && |rest| <= 1 && forall k | 0 <= k < |rest| :: !rest[k].RunFinished?
    ensures StopWins(d, n, [e, f] + rest)
  {
    var batch := [e, f] + rest;
    assert batch[..0] == [] && batch[..1] == [e];
    OneEvent(d, n, e);
    if Apply(d, n + 1, e).Some? { LocalTouchesOne(d, n + 1, e, Apply(d, n + 1, e).value); }
  }

  lemma SettlingLawful(d: Durable, n: nat, l: Lease, p: Packet, incoming: Finish, endedAt: nat)
    requires l.id in d && d[l.id].phase == Settling
    ensures Lawful(d, n, SettlingEvents(l, p, incoming, endedAt))
  {
    hide Apply;
    var batch := SettlingEvents(l, p, incoming, endedAt);
    if |batch| == 1 { OneEventWins(d, n, batch[0]); assert batch == [batch[0]]; }
    else { PairWins(d, n, batch[0], batch[1]); assert batch == [batch[0], batch[1]]; }
  }

  lemma RunningWins(d: Durable, n: nat, l: Lease, finish: Finish, endedAt: nat)
    requires l.id in d && d[l.id].phase == Running
    ensures StopWins(d, n, RunningEvents(l, finish, endedAt))
    ensures finish.disposition != Some(CompletedNoAction) ==> Lawful(d, n, RunningEvents(l, finish, endedAt))
  {
    hide Apply;
    var batch := RunningEvents(l, finish, endedAt);
    if finish.disposition == Some(CompletedNoAction) {
      if |batch| == 1 { OneEventWins(d, n, batch[0]); assert batch == [batch[0]]; }
      else { PairWins(d, n, batch[0], batch[1]); assert batch == [batch[0], batch[1]]; }
    } else {
      PreparedWins(d, n, batch[0], batch[1], batch[2..]);
      assert batch == [batch[0], batch[1]] + batch[2..];
    }
  }

  lemma StoppedLawful(d: Durable, n: nat, l: Lease, packet: Option<Packet>, endedAt: nat)
    ensures Lawful(d, n, [StoppedFinishEvent(l, packet, endedAt)])
  {
    OneEventWins(d, n, StoppedFinishEvent(l, packet, endedAt));
  }

  lemma StartFailureLawful(d: Durable, n: nat, l: Lease, failure: Finish, now: nat, rest: seq<Event>)
    requires rest == [] || rest == [ResumabilityClosed(l.id)]
    ensures Lawful(d, n, StartFailureEvents(l, failure, now) + rest)
  {
    hide Apply;
    var batch := StartFailureEvents(l, failure, now);
    PreparedWins(d, n, batch[0], batch[1], rest);
    assert batch + rest == [batch[0], batch[1]] + rest;
  }

  lemma LostLawful(d: Durable, n: nat, l: Lease, now: nat)
    requires l.id in d && LostEvents(l, d[l.id], now).Some?
    ensures Lawful(d, n, LostEvents(l, d[l.id], now).value)
  {
    hide Apply, SettlingEvents, StoppedFinishEvent, StopWins;
    var a := d[l.id];
    if a.phase == Running {
      var batch := LostEvents(l, a, now).value;
      PreparedWins(d, n, batch[0], batch[1], []);
      assert batch == [batch[0], batch[1]] + [];
    } else if a.phase == Settling {
      var v := SettledFinish(a.prepared.value, NO_FINISH);
      SettlingLawful(d, n, l, a.prepared.value, NO_FINISH, if v.prepared.endedAt != 0 then v.prepared.endedAt else now);
    } else {
      StoppedLawful(d, n, l, None, now);
    }
  }

  lemma QuietLawful(d: Durable, n: nat, e: Event)
    requires !e.RunFinished? && !e.StopCompleted?
    ensures Lawful(d, n, [e])
  {
    OneEventWins(d, n, e);
  }

  lemma StartLawful(d: Durable, n: nat, r: Reservation)
    ensures Lawful(d, n, StartEvents(r))
  {
  }

  // ---- What a step does ----

  /** The journal grew by a lawful batch. */
  ghost predicate Wrote(s: State, n: State) {
    && s.store.journal <= n.store.journal
    && Lawful(s.store.durable, |s.store.journal|, n.store.journal[|s.store.journal|..])
  }

  lemma NothingWritten(s: State, n: State)
    requires n.store.journal == s.store.journal && n.store.durable == s.store.durable
    ensures Wrote(s, n) && Calmer(s.store.durable, n.store.durable) && QueuesGrow(s.store.durable, n.store.durable)
  {
  }

  lemma BatchWritten(s: State, n: State, batch: seq<Event>)
    requires n.store.journal == s.store.journal + batch && Lawful(s.store.durable, |s.store.journal|, batch)
    ensures Wrote(s, n)
  {
    hide Lawful;
    assert n.store.journal[|s.store.journal|..] == batch;
  }

  lemma ClosedIsCalmer(d: Durable, d': Durable, l: Lease)
    requires RunClosed(d, d', l)
    ensures Calmer(d, d')
  {
  }

  lemma SameWorkIsCalmer(d: Durable, d': Durable)
    requires SameWork(d, d')
    ensures Calmer(d, d')
  {
  }

  /** A step that opens no run and drops no delivery. */
  ghost predicate Tame(s: State, n: State) {
    Wrote(s, n) && Calmer(s.store.durable, n.store.durable) && QueuesGrow(s.store.durable, n.store.durable)
  }

  lemma FinishWithTame(s: State, l: Lease, batch: seq<Event>, storeOk: bool, latch: Latch)
    requires JournalInv(s.store.journal, s.store.durable) && ExactLease(s, l) && ClosingBatch(batch, l)
    ensures var n := FinishWith(s, l, batch, storeOk, latch);
            && Calmer(s.store.durable, n.store.durable) && QueuesGrow(s.store.durable, n.store.durable)
            && (n.store == s.store || n.store.journal == s.store.journal + batch)
            && (Lawful(s.store.durable, |s.store.journal|, batch) ==> Wrote(s, n))
  {
    hide WellFormed, ClosingBatch, RunClosed, ApplyBatch, Fold, ReleaseGeneration, Lawful, Wrote, Calmer, QueuesGrow, Latched;
    var r := Append(s, batch, storeOk);
    var n := FinishWith(s, l, batch, storeOk, latch);
    if r.Some? {
      AppendEffect(s, batch, storeOk);
      FinishEffect(s.store.durable, |s.store.journal|, batch, l, r.value.store.durable);
      ClosedIsCalmer(s.store.durable, r.value.store.durable, l);
      if Lawful(s.store.durable, |s.store.journal|, batch) { BatchWritten(s, n, batch); }
    } else {
      NothingWritten(s, n);
    }
  }

  lemma FinishStoppedTame(s: State, l: Lease, packet: Option<Packet>, endedAt: nat, storeOk: bool, latch: Latch)
    requires JournalInv(s.store.journal, s.store.durable) && ExactLease(s, l)
    ensures Tame(s, FinishStopped(s, l, packet, endedAt, storeOk, latch))
  {
    hide JournalInv, FinishWith, ClosingBatch, Lawful, Wrote, Calmer, QueuesGrow, ExactLease, StoppedFinishEvent;
    StoppedClosing(l, packet, endedAt);
    StoppedLawful(s.store.durable, |s.store.journal|, l, packet, endedAt);
    FinishWithTame(s, l, [StoppedFinishEvent(l, packet, endedAt)], storeOk, latch);
  }

  lemma FinishGenerationTame(s: State, l: Lease, finish: Finish, now: nat, storeOk: bool)
    requires JournalInv(s.store.journal, s.store.durable)
    ensures Tame(s, FinishGeneration(s, l, finish, false, now, storeOk))
  {
    hide JournalInv, FinishWith, ClosingBatch, Lawful, Wrote, Calmer, QueuesGrow, FinishStopped, FinalizationReady, SettlingEvents, RunningEvents;
    var n := FinishGeneration(s, l, finish, false, now, storeOk);
    if n.store == s.store { NothingWritten(s, n); }
    else {
      var a := s.store.durable[l.id];
      var endedAt := if finish.endedAt != 0 then finish.endedAt else now;
      if a.phase == Stopping { FinishStoppedTame(s, l, finish.packet, endedAt, storeOk, LatchTriple); }
      else {
        GenerationClosing(a, l, finish, endedAt);
        if a.phase == Running { RunningWins(s.store.durable, |s.store.journal|, l, finish, endedAt); }
        else { SettlingLawful(s.store.durable, |s.store.journal|, l, a.prepared.value, finish, endedAt); }
        FinishWithTame(s, l, GenerationEvents(a, l, finish, endedAt), storeOk, LatchTriple);
      }
    }
  }

  /** The authorized finish, the one place a no-action event can come from. */
  lemma FinishNoActionWrites(s: State, t: Token, now: nat, storeOk: bool)
    requires JournalInv(s.store.journal, s.store.durable)
    ensures var n := FinishNoAction(s, t, now, storeOk);
            && s.store.journal <= n.store.journal
            && StopWins(s.store.durable, |s.store.journal|, n.store.journal[|s.store.journal|..])
            && Calmer(s.store.durable, n.store.durable) && QueuesGrow(s.store.durable, n.store.durable)
            && (n.store != s.store ==> NoActionEligible(s, t, true) && s.runs.live[s.tables.settlements[t].lease.id].binding.value.evidence.fallback.Some?)
            && (n.store != s.store ==> ClosingBatch(n.store.journal[|s.store.journal|..], s.tables.settlements[t].lease))
            && (n.store != s.store && s.store.durable[s.tables.settlements[t].lease.id].phase == Stopping
                ==> Lawful(s.store.durable, |s.store.journal|, n.store.journal[|s.store.journal|..]))
  {
    hide JournalInv, FinishGeneration, ClosingBatch, Calmer, QueuesGrow, StopWins;
    var n := FinishNoAction(s, t, now, storeOk);
    if n.store == s.store { NothingWritten(s, n); NoEventsWin(s.store.durable, |s.store.journal|); assert n.store.journal[|s.store.journal|..] == []; }
    else {
      var l := s.tables.settlements[t].lease;
      var fallback := s.runs.live[l.id].binding.value.evidence.fallback.value;
      if s.store.durable[l.id].phase == Stopping {
        FallbackFinish(s, l, fallback, now, storeOk);
      } else {
        AttentionFinish(s, l, FinishOf(Completed, CompletedNoAction, AttentionConsumed).(endedAt := fallback.endedAt), now, storeOk);
      }
    }
  }

  lemma NoEventsWin(d: Durable, n: nat)
    ensures StopWins(d, n, [])
  {
  }

  lemma FallbackFinish(s: State, l: Lease, finish: Finish, now: nat, storeOk: bool)
    requires JournalInv(s.store.journal, s.store.durable) && ExactLease(s, l) && s.store.durable[l.id].phase == Stopping
    ensures var n := FinishGeneration(s, l, finish, true, now, storeOk);
            Tame(s, n) && (n.store != s.store ==> ClosingBatch(n.store.journal[|s.store.journal|..], l))
  {
    hide JournalInv, ClosingBatch, Lawful, Calmer, QueuesGrow, FinalizationReady, StopWins, StoppedFinishEvent, FinishWith;
    var n := FinishGeneration(s, l, finish, true, now, storeOk);
    var endedAt := if finish.endedAt != 0 then finish.endedAt else now;
    if n.store == s.store { NothingWritten(s, n); }
    else {
      var batch := [StoppedFinishEvent(l, finish.packet, endedAt)];
      StoppedClosing(l, finish.packet, endedAt);
      StoppedLawful(s.store.durable, |s.store.journal|, l, finish.packet, endedAt);
      FinishWithTame(s, l, batch, storeOk, LatchTriple);
      assert n.store.journal[|s.store.journal|..] == batch;
    }
  }

  lemma AttentionFinish(s: State, l: Lease, finish: Finish, now: nat, storeOk: bool)
    requires JournalInv(s.store.journal, s.store.durable) && ExactLease(s, l) && s.store.durable[l.id].phase == Running
    ensures var n := FinishGeneration(s, l, finish, true, now, storeOk);
            && s.store.journal <= n.store.journal
            && StopWins(s.store.durable, |s.store.journal|, n.store.journal[|s.store.journal|..])
            && Calmer(s.store.durable, n.store.durable) && QueuesGrow(s.store.durable, n.store.durable)
            && (n.store != s.store ==> ClosingBatch(n.store.journal[|s.store.journal|..], l))
  {
    hide JournalInv, ClosingBatch, Lawful, Calmer, QueuesGrow, FinalizationReady, StopWins, RunningEvents, FinishWith;
    var n := FinishGeneration(s, l, finish, true, now, storeOk);
    var endedAt := if finish.endedAt != 0 then finish.endedAt else now;
    if n.store == s.store {
      NothingWritten(s, n);
      NoEventsWin(s.store.durable, |s.store.journal|);
      assert n.store.journal[|s.store.journal|..] == [];
    } else {
      var batch := RunningEvents(l, finish, endedAt);
      GenerationClosing(s.store.durable[l.id], l, finish, endedAt);
      RunningWins(s.store.durable, |s.store.journal|, l, finish, endedAt);
      FinishWithTame(s, l, batch, storeOk, LatchTriple);
      assert n.store.journal[|s.store.journal|..] == batch;
    }
  }

  // ---- Starts ----

  lemma CommitStartWrites(s: State, t: Token, cancelled: bool, pending: set<nat>, storeOk: bool)
    requires JournalInv(s.store.journal, s.store.durable)
    ensures var n := CommitStart(s, t, cancelled, pending, storeOk); Wrote(s, n) && (n.store == s.store || Committed(s, n, t))
  {
    hide JournalInv, Lawful, Committed, CommitRefused, StartEvents, ReleaseReservation, StartedLive, AddChildEdge, UntrackStart, Append;
    var n := CommitStart(s, t, cancelled, pending, storeOk);
    if n.store == s.store { NothingWritten(s, n); }
    else {
      var r := s.runs.reservations[t];
      CommitLands(s, t, cancelled, pending, storeOk);
      StartLawful(s.store.durable, |s.store.journal|, r);
      BatchWritten(s, n, StartEvents(r));
    }
  }

  lemma CompleteStartInputTame(s: State, t: Token, committed: bool, failure: Finish, now: nat, storeOk: bool)
    requires JournalInv(s.store.journal, s.store.durable)
    ensures Tame(s, CompleteStartInput(s, t, committed, failure, now, storeOk))
  {
    hide JournalInv, FinishWith, FinishStopped, ClosingBatch, StartFailureEvents, Lawful, Calmer, QueuesGrow;
    var n := CompleteStartInput(s, t, committed, failure, now, storeOk);
    if n.store == s.store { NothingWritten(s, n); }
    else {
      var l := s.runs.inputs[t];
      var taken := Taken(s, t);
      TakenKeepsLease(s, t);
      if s.store.durable[l.id].phase == Stopping { FinishStoppedTame(taken, l, None, now, storeOk, LatchRecovery); }
      else {
        StartFailureClosing(l, failure, now, false);
        StartFailureLawful(s.store.durable, |s.store.journal|, l, failure, now, []);
        assert StartFailureEvents(l, failure, now) + [] == StartFailureEvents(l, failure, now);
        FinishWithTame(taken, l, StartFailureEvents(l, failure, now), storeOk, LatchRecovery);
      }
    }
  }

  lemma FailCommittedTame(s: State, l: Lease, failure: Finish, close: bool, forClose: Runtime, now: nat, storeOk: bool)
    requires JournalInv(s.store.journal, s.store.durable)
    ensures Tame(s, FailCommitted(s, l, failure, close, forClose, now, storeOk))
  {
    hide JournalInv, FinishWith, FinishStopped, ClosingBatch, StartFailureEvents, Lawful, Calmer, QueuesGrow;
    var n := FailCommitted(s, l, failure, close, forClose, now, storeOk);
    if n.store == s.store { NothingWritten(s, n); }
    else if s.store.durable[l.id].phase == Stopping {
      FinishStoppedTame(s, l, None, now, storeOk, LatchRecovery);
    } else {
      var rest := if close then [ResumabilityClosed(l.id)] else [];
      StartFailureClosing(l, failure, now, close);
      StartFailureLawful(s.store.durable, |s.store.journal|, l, failure, now, rest);
      FinishWithTame(s, l, StartFailureEvents(l, failure, now) + rest, storeOk, LatchRecovery);
    }
  }

  lemma StartTame(s: State, x: StartStep)
    requires JournalInv(s.store.journal, s.store.durable)
    ensures var n := NextStart(s, x);
            && (!x.DoCommitStart? ==> Tame(s, n))
            && (x.DoCommitStart? ==> Wrote(s, n) && (n.store == s.store || Committed(s, n, x.token)))
  {
    hide JournalInv, Tame, Wrote, Committed, CommitStart, ReserveCreate, ReserveStart, ReserveAttention, ReserveOwedAttention, RegisterWaiter,
         ReleaseReservation, AttachRuntime, AttachIdleRuntime, BeginStartInput, CompleteStartInput, FailCommitted;
    match x
    case DoCommitStart(t, c, p, ok) => CommitStartWrites(s, t, c, p, ok);
    case DoCompleteStartInput(t, c, f, now, ok) => CompleteStartInputTame(s, t, c, f, now, ok);
    case DoFailCommitted(l, f, c, r, now, ok) => FailCommittedTame(s, l, f, c, r, now, ok);
    case _ => TameWithout(s, NextStart(s, x));
  }

  lemma TameWithout(s: State, n: State)
    requires n.store.journal == s.store.journal && n.store.durable == s.store.durable
    ensures Tame(s, n)
  {
    NothingWritten(s, n);
  }

  // ---- The other steps ----

  lemma QuietAppendTame(s: State, e: Event, storeOk: bool)
    requires JournalInv(s.store.journal, s.store.durable) && Append(s, [e], storeOk).Some?
    requires e.TerminalPrepared? || e.ResumabilityClosed? || e.UpdatePosted?
    ensures Tame(s, Append(s, [e], storeOk).value)
  {
    hide WellFormed, Fold, Apply, Lawful, Calmer, QueuesGrow, SameWork, Append;
    var n := Append(s, [e], storeOk).value;
    AppendEffect(s, [e], storeOk);
    OneEvent(s.store.durable, |s.store.journal|, e);
    QuietEffect(s.store.durable, |s.store.journal| + 1, e, n.store.durable);
    SameWorkIsCalmer(s.store.durable, n.store.durable);
    QuietLawful(s.store.durable, |s.store.journal|, e);
    BatchWritten(s, n, [e]);
  }

  lemma SameStoreTame(s: State, n: State, m: State)
    requires Tame(s, n) && m.store == n.store
    ensures Tame(s, m)
  {
  }

  lemma CompleteSettlementTame(s: State, t: Token, packet: Option<Packet>, storeOk: bool)
    requires JournalInv(s.store.journal, s.store.durable)
    ensures Tame(s, CompleteSettlement(s, t, packet, storeOk))
  {
    hide JournalInv, Tame, Append, Admitted, ClaimReady;
    var n := CompleteSettlement(s, t, packet, storeOk);
    if n.store == s.store { TameWithout(s, n); }
    else {
      var l := s.tables.settlements[t].lease;
      var e := TerminalPrepared(l.id, l.generation, if packet.Some? then packet.value else MISSING);
      QuietAppendTame(s, e, storeOk);
      SameStoreTame(s, Append(s, [e], storeOk).value, n);
    }
  }

  lemma FinishTame(s: State, x: FinishStep)
    requires JournalInv(s.store.journal, s.store.durable) && !x.DoFinishNoAction?
    ensures Tame(s, NextFinish(s, x))
  {
    hide JournalInv, Tame, FinishGeneration, BeginFinalization, CompleteSettlement, FinishNoAction, PrepareNoAction, RequireRecovery, ReportQuiesced,
         AdmitReportWork, RecordNoAction, RecordTerminalSeen;
    match x
    case DoFinishGeneration(l, f, now, ok) => FinishGenerationTame(s, l, f, now, ok);
    case DoCompleteSettlement(t, p, ok) => CompleteSettlementTame(s, t, p, ok);
    case _ => TameWithout(s, NextFinish(s, x));
  }

  /** An acknowledgement pops exactly its head. */
  ghost predicate Acked(s: State, n: State, r: Receipt) {
    && SameRuns(s.store.durable, n.store.durable) && r.delegate in s.store.durable
    && s.store.durable[r.delegate].queue != [] && s.store.durable[r.delegate].queue[0].did == r.did
    && forall i | i in s.store.durable :: n.store.durable[i].queue ==
         if i == r.delegate then s.store.durable[i].queue[1..] else s.store.durable[i].queue
  }

  lemma CompleteDeliveryWrites(s: State, t: Token, committed: bool, wake: nat, storeOk: bool)
    requires JournalInv(s.store.journal, s.store.durable)
    ensures var n := CompleteDelivery(s, t, committed, wake, storeOk);
            Wrote(s, n) && (n.store == s.store || (t in s.post.receipts && committed && Acked(s, n, s.post.receipts[t])))
  {
    hide WellFormed, Fold, Apply, Lawful, SameWork, Append, RestoreHeld, Note, UntrackReceipt;
    var n := CompleteDelivery(s, t, committed, wake, storeOk);
    if n.store == s.store { NothingWritten(s, n); }
    else {
      var r := s.post.receipts[t];
      var e := DeliveryAcknowledged(r.delegate, r.did);
      AppendEffect(s, [e], storeOk);
      OneEvent(s.store.durable, |s.store.journal|, e);
      AckEffect(s.store.durable, |s.store.journal| + 1, e, n.store.durable);
      QuietLawful(s.store.durable, |s.store.journal|, e);
      BatchWritten(s, n, [e]);
    }
  }

  lemma PostUpdateTame(s: State, l: Lease, note: Packet, storeOk: bool)
    requires JournalInv(s.store.journal, s.store.durable)
    ensures Tame(s, PostUpdate(s, l, note, storeOk))
  {
    hide JournalInv, Tame, Append, Admitted, HasSettlement;
    var e := UpdatePosted(l.id, l.generation, note);
    TameWithout(s, s);
    if Append(s, [e], storeOk).Some? { QuietAppendTame(s, e, storeOk); }
  }

  lemma ClosureTame(s: State, id: Id, storeOk: bool)
    requires JournalInv(s.store.journal, s.store.durable)
    ensures Tame(s, AppendClosure(s, id, storeOk))
  {
    hide JournalInv, Tame, Append;
    TameWithout(s, s);
    if Append(s, [ResumabilityClosed(id)], storeOk).Some? { QuietAppendTame(s, ResumabilityClosed(id), storeOk); }
  }

  lemma LoseRuntimeTame(s: State, l: Lease, now: nat, storeOk: bool)
    requires JournalInv(s.store.journal, s.store.durable)
    ensures Tame(s, LoseRuntime(s, l, now, storeOk))
  {
    hide WellFormed, Fold, ApplyBatch, Lawful, Calmer, QueuesGrow, Append, LostEvents, ClosingBatch, RunClosed;
    var n := LoseRuntime(s, l, now, storeOk);
    if n.store == s.store { NothingWritten(s, n); }
    else {
      var batch := LostEvents(l, s.store.durable[l.id], now).value;
      LostClosing(l, s.store.durable[l.id], now);
      LostLawful(s.store.durable, |s.store.journal|, l, now);
      AppendEffect(s, batch, storeOk);
      FinishEffect(s.store.durable, |s.store.journal|, batch, l, n.store.durable);
      ClosedIsCalmer(s.store.durable, n.store.durable, l);
      BatchWritten(s, n, batch);
    }
  }

  /** A request marks exactly the subtree. */
  ghost predicate Requested(s: State, n: State, target: Id) {
    && SameWork(s.store.durable, n.store.durable) && s.stop.None? && n.stop.Some? && target in s.store.durable
    && (forall i | i in s.store.durable :: n.store.durable[i].queue == s.store.durable[i].queue)
    && n.stop.value.members == Subtree(ShapeOf(s.store.durable), target) == StopMembers(n.store.durable, |s.store.journal| + 1)
  }

  lemma StopSubtreeWrites(s: State, actor: Option<Lease>, target: Id, allowClosing: bool, storeOk: bool)
    requires JournalInv(s.store.journal, s.store.durable)
    ensures var n := StopSubtree(s, actor, target, allowClosing, storeOk); Wrote(s, n) && (n == s || Requested(s, n, target))
  {
    hide WellFormed, Fold, Apply, Lawful, SameWork, Append, Subtree, StopMembers, Authorized, OweAll, ClaimsIn, WaitersIn, AttentionBlocks;
    var n := StopSubtree(s, actor, target, allowClosing, storeOk);
    if n.store == s.store { NothingWritten(s, n); }
    else {
      var e := StopRequested(target);
      AppendEffect(s, [e], storeOk);
      OneEvent(s.store.durable, |s.store.journal|, e);
      StopRequestEffect(s.store.durable, |s.store.journal|, target, n.store.durable);
      QuietLawful(s.store.durable, |s.store.journal|, e);
      BatchWritten(s, n, [e]);
    }
  }

  /** A completion finds nothing tracked, no wake and no open member, and drops the queues of covered owners. */
  ghost predicate StopEnded(s: State, n: State) {
    && s.stop.Some? && n.stop.None? && Drained(s.stop.value)
    && (forall i | i in s.stop.value.members :: WakesOf(s, i) == {})
    && SameWork(s.store.durable, n.store.durable)
    && (forall i | i in StopMembers(s.store.durable, s.stop.value.seqNo) :: !s.store.durable[i].open)
    && (forall i | i in s.store.durable :: n.store.durable[i].queue ==
          if s.store.durable[i].parent in StopMembers(s.store.durable, s.stop.value.seqNo) then [] else s.store.durable[i].queue)
    && n.store.journal == s.store.journal + [StopCompleted(s.stop.value.target, s.stop.value.seqNo)]
  }

  lemma CompleteStopWrites(s: State, evidenceClean: bool, storeOk: bool)
    requires JournalInv(s.store.journal, s.store.durable)
    ensures var n := CompleteStop(s, evidenceClean, storeOk); n == s || StopEnded(s, n)
  {
    hide WellFormed, Fold, Apply, SameWork, Append, StopMembers, Drained, WakesOf;
    var n := CompleteStop(s, evidenceClean, storeOk);
    if n.store != s.store {
      var e := StopCompleted(s.stop.value.target, s.stop.value.seqNo);
      AppendEffect(s, [e], storeOk);
      OneEvent(s.store.durable, |s.store.journal|, e);
      StopCompleteEffect(s.store.durable, |s.store.journal|, e, n.store.durable);
    }
  }

  lemma RecoverStoppedTame(s: State, l: Lease, now: nat, storeOk: bool)
    requires JournalInv(s.store.journal, s.store.durable)
    ensures Tame(s, RecoverStopped(s, l, now, storeOk))
  {
    hide JournalInv, Tame, FinishStopped;
    TameWithout(s, s);
    if ExactLease(s, l) { FinishStoppedTame(s, l, None, now, storeOk, LatchNothing); }
  }

  lemma StopStepTame(s: State, x: StopStep)
    requires JournalInv(s.store.journal, s.store.durable) && !x.DoStopSubtree? && !x.DoCompleteStop?
    ensures Tame(s, NextStop(s, x))
  {
    hide JournalInv, Tame, StopSubtree, RecoverStopped, CompleteStop, LoseRuntime, ForgetLost, BeginClosing, AppendClosure, OpenAttention, ForgetAttention,
         DerivedIndex;
    match x
    case DoRecoverStopped(l, now, ok) => RecoverStoppedTame(s, l, now, ok);
    case DoLoseRuntime(l, now, ok) => LoseRuntimeTame(s, l, now, ok);
    case DoCloseResumability(a, id, ok) =>
      TameWithout(s, s);
      ClosureTame(s, id, ok);
    case DoCloseUnrestorable(id, ok) =>
      TameWithout(s, s);
      ClosureTame(s, id, ok);
    case _ => TameWithout(s, NextStop(s, x));
  }

  lemma DeliverTame(s: State, x: DeliverStep)
    requires JournalInv(s.store.journal, s.store.durable) && !x.DoCompleteDelivery?
    ensures Tame(s, NextDeliver(s, x))
  {
    hide JournalInv, Tame, PostUpdate, PlanDelivery, BeginDelivery, CompleteDelivery, LeaveForRetry, HoldClaim, DropClaim, WithdrawWaiter,
         DropStoppedWaiter, AnswerWaiter;
    match x
    case DoPostUpdate(l, note, ok) => PostUpdateTame(s, l, note, ok);
    case _ => TameWithout(s, NextDeliver(s, x));
  }
}
