/** What one reconciliation leaves behind: which run it recovers, which lost runs it ends, which acknowledgements it retries, and exactly when
    the stop completes. */
module Reconciling {
  import opened Types
  import opened Tree
  import opened Journal
  import opened JournalLaws
  import opened State
  import opened Settle
  import opened Finishing
  import opened Delivering
  import opened Stopping
  import opened Effects
  import opened Invariants
  import opened StopOutcomes
  import opened DeliverOutcomes
  import Crash

  // ---- Recovered runs ----

  /** The order in which a stop goes through its runs. */
  predicate Earlier(a: Lease, b: Lease) {
    a.id < b.id || (a.id == b.id && a.generation < b.generation)
  }

  predicate FirstRecoverable(s: State, l: Lease) {
    Recoverable(s, l) && forall m | s.stop.Some? && m in s.stop.value.active && Recoverable(s, m) :: !Earlier(m, l)
  }

  /** The run is over on the stop's behalf, and nothing is tracked that was not. */
  predicate Recovered(s: State, n: State, l: Lease, now: nat) {
    && n.store.journal == s.store.journal + [StoppedFinishEvent(l, None, now)]
    && !OpenRun(n.store.durable, l.id, l.generation) && LeaseAt(n.runs.live, l.id).None?
    && s.stop.Some? && n.stop.Some? && n.stop.value.active == s.stop.value.active - {l}
  }

  lemma RecoveryLeaves(s: State, l: Lease, now: nat, storeOk: bool)
    requires JournalInv(s.store.journal, s.store.durable) && Recoverable(s, l)
    ensures var n := FinishWith(s, l, [StoppedFinishEvent(l, None, now)], storeOk, LatchNothing);
            n == RecoverStopped(s, l, now, storeOk) && if storeOk then Recovered(s, n, l, now) else n == s
  {
    RecoveryIs(s, l, now, storeOk);
    if storeOk { RecoveryEnds(s, l, now); }
    hide JournalInv, StoppedFinishEvent, ApplyBatch, ReleaseGeneration, SteersReleased, EvidenceGrows, SameWaiters, OnlyRunEnds, OnlyGeneration;
    if !storeOk { assert s.runs.live[l.id := s.runs.live[l.id]] == s.runs.live; }
  }

  // ---- Lost runs ----

  /** Open, lost, and no runtime came back for it. */
  predicate LostRun(s: State, l: Lease) {
    l in s.runs.lost && OpenRun(s.store.durable, l.id, l.generation) && LeaseAt(s.runs.live, l.id) != Some(l)
  }

  /** Its prepared end would close for good a delegate that was closed while it ran. */
  predicate Stuck(a: Aggregate) {
    && a.phase == Settling && a.prepared.Some? && !a.resumable
    && PreparedFinish(a.prepared.value).exhaustion.Some? && !PreparedFinish(a.prepared.value).exhaustion.value.resumable
  }

  ghost predicate PreparedValid(d: Durable) {
    forall i | i in d && d[i].prepared.Some? :: ValidPacket(d[i].prepared.value)
  }

  lemma ApplyPreparesValid(d: Durable, n: nat, e: Event, d': Durable)
    requires PreparedValid(d) && Apply(d, n, e) == Some(d')
    ensures PreparedValid(d')
  {
    hide KeepUncovered, Under, ShapeOf;
  }

  lemma {:induction false} FoldPreparesValid(journal: seq<Event>, d: Durable)
    requires Fold(journal) == Some(d)
    ensures PreparedValid(d)
  {
    hide Apply, PreparedValid;
    if journal == [] {
      NothingPrepared();
    } else {
      var init := Fold(journal[..|journal| - 1]).value;
      FoldPreparesValid(journal[..|journal| - 1], init);
      ApplyPreparesValid(init, |journal|, journal[|journal| - 1], d);
    }
  }

  lemma NothingPrepared()
    ensures PreparedValid(map[])
  {
  }

  /** A prepared run that was lost ends in one event, and closes its delegate for good in a second when it ran out of turns. */
  lemma SettlingIs(l: Lease, a: Aggregate, now: nat)
    requires a.phase == Settling && a.prepared.Some?
    ensures var p := PreparedFinish(a.prepared.value); var at := if p.endedAt != 0 then p.endedAt else now;
            var e := RunFinished(l.id, l.generation, Outcome(if p.outcome.Some? then p.outcome.value else Failed, p.reason, at, p.exhaustion),
                                 PacketDisposition(a.prepared.value), Some(Report(l.id, l.generation)), None);
            LostEvents(l, a, now) == Some(if p.exhaustion.Some? && !p.exhaustion.value.resumable then [e, ResumabilityClosed(l.id)] else [e])
            && ValidOutcome(e.outcome)
  {
  }

  lemma RunningLossLands(d: Durable, n: nat, l: Lease, now: nat)
    requires OpenRun(d, l.id, l.generation) && d[l.id].phase == Running && !Queued(d[l.id].queue, ReportId(l))
    ensures LostEvents(l, d[l.id], now).Some? && ApplyBatch(d, n, LostEvents(l, d[l.id], now).value).Some?
  {
    var batch := LostEvents(l, d[l.id], now).value;
    TwoEvents(d, n, batch[0], batch[1]);
    assert batch == [batch[0], batch[1]];
    hide Queued, ApplyBatch;
  }

  lemma SettlingLossLands(d: Durable, n: nat, l: Lease, now: nat)
    requires PreparedValid(d) && OpenRun(d, l.id, l.generation) && d[l.id].phase == Settling && d[l.id].prepared.Some? && !Queued(d[l.id].queue, ReportId(l))
    ensures LostEvents(l, d[l.id], now).Some?
    ensures ApplyBatch(d, n, LostEvents(l, d[l.id], now).value).Some? <==> !Stuck(d[l.id])
  {
    SettlingIs(l, d[l.id], now);
    hide Queued, ApplyBatch, LostEvents, PreparedFinish, ValidOutcome;
    var batch := LostEvents(l, d[l.id], now).value;
    if |batch| == 2 {
      assert batch == [batch[0], batch[1]];
      TwoEvents(d, n, batch[0], batch[1]);
    } else {
      assert batch == [batch[0]];
      OneEvent(d, n, batch[0]);
    }
  }

  /** A lost run can always be ended, but for one: a run that ran out of turns in a delegate that was closed while it ran. Its end closes the
      delegate again, which the journal refuses. */
  lemma LostRunLands(d: Durable, n: nat, l: Lease, now: nat)
    requires WellFormed(d, n) && PreparedValid(d) && OpenRun(d, l.id, l.generation)
    ensures LostEvents(l, d[l.id], now).Some?
    ensures ApplyBatch(d, n, LostEvents(l, d[l.id], now).value).Some? <==> !Stuck(d[l.id])
  {
    Crash.NotQueuedYet(d, n, l);
    assert AggregateOk(l.id, d[l.id], n);
    hide WellFormed, Queued, ApplyBatch, QueueOk, PreparedFinish, StoppedFinishEvent;
    if d[l.id].phase == Running { RunningLossLands(d, n, l, now); }
    else if d[l.id].phase == Settling { SettlingLossLands(d, n, l, now); }
    else { StoppedLands(d, n, l, now); }
  }

  /** One lost run: it ends unless the store refuses or it is stuck, and no other record changes. */
  lemma LossStep(s: State, l: Lease, now: nat, storeOk: bool)
    requires JournalInv(s.store.journal, s.store.durable) && LostRun(s, l)
    ensures var batch := LostEvents(l, s.store.durable[l.id], now);
            && batch.Some? && (Append(s, batch.value, storeOk).Some? <==> storeOk && !Stuck(s.store.durable[l.id]))
            && (Append(s, batch.value, storeOk).Some? ==> RunClosed(s.store.durable, Append(s, batch.value, storeOk).value.store.durable, l))
            && batch.value != []
  {
    hide WellFormed, Fold, LostEvents, ApplyBatch, Stuck, RunClosed, QueuesGrow;
    FoldPreparesValid(s.store.journal, s.store.durable);
    LostRunLands(s.store.durable, |s.store.journal|, l, now);
    var batch := LostEvents(l, s.store.durable[l.id], now).value;
    LostClosing(l, s.store.durable[l.id], now);
    if Append(s, batch, storeOk).Some? {
      FinishEffect(s.store.durable, |s.store.journal|, batch, l, Append(s, batch, storeOk).value.store.durable);
    }
  }

  /** Out of turns, as its packet says. */
  const OUT_OF_TURNS := Packet(TerminalErrorPacket, OtherText("out of turns"), true, Decoded(Metadata(None, Some(Exhausted), TurnsExhausted, "", Some(Turns), 5, Some(false))))

  /** A journal that ends in such a run: the delegate is closed while it runs, and the run then prepares its end. */
  const CLOSED_WHILE_RUNNING := [Created(1, NO_ID, true), RunStarted(1, 1, InitialTrigger), ResumabilityClosed(1), TerminalPrepared(1, 1, OUT_OF_TURNS)]

  lemma StuckRunHappens()
    ensures var d := Fold(CLOSED_WHILE_RUNNING); d.Some? && OpenRun(d.value, 1, 1) && Stuck(d.value[1])
  {
    var j := CLOSED_WHILE_RUNNING;
    assert j[..3][..2][..1][..0] == [];
    assert j[..3][..2][..1] == [j[0]] && j[..3][..2] == [j[0], j[1]] && j[..3] == [j[0], j[1], j[2]];
    var a := Aggregate(NO_ID, 1, 0, InitialTrigger, Idle, false, None, true, None, [], 0);
    var d1 := map[1 := a];
    assert Fold([j[0]]) == Some(d1);
    var d2 := d1[1 := a.(generation := 1, phase := Running, open := true)];
    assert Fold([j[0], j[1]]) == Some(d2);
    var d3 := d2[1 := d2[1].(resumable := false)];
    assert Fold([j[0], j[1], j[2]]) == Some(d3);
  }

  // ---- Retried acknowledgements ----

  /** An admission whose acknowledgement failed and whose executor is gone. */
  predicate Retryable(s: State, t: Token) {
    t in s.post.receipts && s.post.receipts[t].retryable && !s.post.receipts[t].inline
  }

  /** The stop is waiting for it, and may acknowledge it itself. */
  predicate Due(s: State, t: Token) {
    s.stop.Some? && t in s.stop.value.receipts && Retryable(s, t)
  }

  predicate Gone(s: State, n: State, t: Token) {
    t in s.post.receipts && t !in n.post.receipts
  }

  /** The receipts that went, and only they, were due, in token order; the stop tracks the rest. */
  ghost predicate ReceiptsRetried(s: State, n: State) {
    && s.stop.Some? && n.stop == Some(s.stop.value.(receipts := set t | t in s.stop.value.receipts && !Gone(s, n, t)))
    && (forall t | t in n.post.receipts :: t in s.post.receipts && n.post.receipts[t] == s.post.receipts[t])
    && (forall t | Gone(s, n, t) :: Due(s, t))
    && (forall t, u | Gone(s, n, t) && Due(s, u) && u < t :: Gone(s, n, u))
  }

  /** The event acknowledges a receipt that went, and its owner owes the wake. */
  predicate Tells(s: State, n: State, t: Token, e: Event, wake: DeliveryId -> nat) {
    && Gone(s, n, t) && e == DeliveryAcknowledged(s.post.receipts[t].delegate, s.post.receipts[t].did)
    && (Notified(s, s.post.receipts[t], wake(s.post.receipts[t].did)) ==> wake(s.post.receipts[t].did) in WakesOf(n, s.post.receipts[t].owner))
  }

  ghost predicate Answers(s: State, n: State, e: Event, wake: DeliveryId -> nat) {
    exists t :: Tells(s, n, t, e, wake)
  }

  /** The wakes of the receipts that went and that the delegate owned. */
  function Woken(s: State, n: State, i: Id, wake: DeliveryId -> nat): set<nat> {
    set t | t in s.post.receipts && Gone(s, n, t) && s.post.receipts[t].owner == i :: wake(s.post.receipts[t].did)
  }

  /** What was journaled acknowledges receipts that went, each of their owners owes its wake, and no other wake is new. */
  ghost predicate Told(s: State, n: State, wake: DeliveryId -> nat) {
    && s.store.journal <= n.store.journal
    && (forall k | |s.store.journal| <= k < |n.store.journal| :: Answers(s, n, n.store.journal[k], wake))
    && forall i :: WakesOf(s, i) <= WakesOf(n, i) <= WakesOf(s, i) + Woken(s, n, i, wake)
  }

  predicate AckedSince(s: State, n: State, r: Receipt) {
    exists k | |s.store.journal| <= k < |n.store.journal| :: n.store.journal[k] == DeliveryAcknowledged(r.delegate, r.did)
  }

  /** A delivery that stood at the head of its queue is acknowledged once its receipt went. */
  ghost predicate HeadsAcknowledged(s: State, n: State) {
    forall t | t in s.post.receipts && AtHead(s, s.post.receipts[t]) ::
      (t in n.post.receipts && AtHead(n, s.post.receipts[t])) || AckedSince(s, n, s.post.receipts[t])
  }

  predicate OnlyQueues(d: Durable, d': Durable) {
    d'.Keys == d.Keys && forall i | i in d :: d'[i] == d[i].(queue := d'[i].queue)
  }

  /** What retrying acknowledgements leaves, whether or not it got through all of them. */
  ghost predicate Retried(s: State, n: State, wake: DeliveryId -> nat) {
    && n == s.(store := s.store.(journal := n.store.journal, durable := n.store.durable),
               post := s.post.(receipts := n.post.receipts, attention := n.post.attention), stop := n.stop)
    && OnlyQueues(s.store.durable, n.store.durable) && ReceiptsRetried(s, n) && Told(s, n, wake) && HeadsAcknowledged(s, n)
  }

  lemma NothingRetried(s: State, wake: DeliveryId -> nat)
    requires s.stop.Some?
    ensures Retried(s, s, wake)
  {
    assert s.stop.value.receipts == set t | t in s.stop.value.receipts && !Gone(s, s, t);
    hide AtHead;
  }

  lemma ReceiptsStep(s: State, m: State, n: State, t: Token)
    requires ReceiptsRetried(s, m) && Due(m, t) && ReceiptGone(m, n, t) && forall u: Token | Due(s, u) && u < t :: Gone(s, m, u)
    ensures ReceiptsRetried(s, n) && t in s.post.receipts && m.post.receipts[t] == s.post.receipts[t]
  {
    forall u | u in s.stop.value.receipts ensures u in n.stop.value.receipts <==> !Gone(s, n, u) { assert Gone(s, n, u) <==> Gone(s, m, u) || u == t; }
    assert n.stop.value.receipts == set u | u in s.stop.value.receipts && !Gone(s, n, u);
  }

  lemma WokenGrows(s: State, m: State, n: State, i: Id, wake: DeliveryId -> nat)
    requires n.post.receipts.Keys <= m.post.receipts.Keys
    ensures Woken(s, m, i, wake) <= Woken(s, n, i, wake)
  {
    forall t | t in s.post.receipts && Gone(s, m, t) ensures Gone(s, n, t) { }
  }

  lemma StillTells(s: State, m: State, n: State, t: Token, e: Event, wake: DeliveryId -> nat)
    requires Tells(s, m, t, e, wake) && n.post.receipts.Keys <= m.post.receipts.Keys && forall i :: WakesOf(m, i) <= WakesOf(n, i)
    ensures Tells(s, n, t, e, wake)
  {
    hide WakesOf;
  }

  lemma ToldStep(s: State, m: State, n: State, t: Token, wake: DeliveryId -> nat)
    requires Told(s, m, wake) && t in m.post.receipts && t in s.post.receipts && m.post.receipts[t] == s.post.receipts[t] && n.post.receipts == m.post.receipts - {t}
    requires m.store.durable.Keys == s.store.durable.Keys
    requires var r := m.post.receipts[t];
             && n.store.journal == m.store.journal + [DeliveryAcknowledged(r.delegate, r.did)]
             && forall i :: WakesOf(n, i) == if i == r.owner && Notified(m, r, wake(r.did)) then WakesOf(m, i) + {wake(r.did)} else WakesOf(m, i)
    ensures Told(s, n, wake)
  {
    hide WakesOf;
    var r := m.post.receipts[t];
    forall k | |s.store.journal| <= k < |n.store.journal| ensures Answers(s, n, n.store.journal[k], wake) {
      if k < |m.store.journal| {
        var u :| Tells(s, m, u, m.store.journal[k], wake);
        StillTells(s, m, n, u, m.store.journal[k], wake);
      } else {
        assert Tells(s, n, t, n.store.journal[k], wake);
      }
    }
    forall i ensures WakesOf(s, i) <= WakesOf(n, i) <= WakesOf(s, i) + Woken(s, n, i, wake) {
      WokenGrows(s, m, n, i, wake);
      if i == r.owner { assert Gone(s, n, t) && wake(r.did) in Woken(s, n, i, wake); }
    }
  }

  lemma StaleTold(s: State, m: State, n: State, t: Token, wake: DeliveryId -> nat)
    requires Told(s, m, wake) && n.post.receipts == m.post.receipts - {t} && n.post.attention == m.post.attention && n.store.journal == m.store.journal
    ensures Told(s, n, wake)
  {
    assert forall i :: WakesOf(n, i) == WakesOf(m, i);
    hide WakesOf;
    forall k | |s.store.journal| <= k < |n.store.journal| ensures Answers(s, n, n.store.journal[k], wake) {
      var u :| Tells(s, m, u, m.store.journal[k], wake);
      StillTells(s, m, n, u, m.store.journal[k], wake);
    }
    forall i ensures WakesOf(s, i) <= WakesOf(n, i) <= WakesOf(s, i) + Woken(s, n, i, wake) { WokenGrows(s, m, n, i, wake); }
  }

  lemma HeadsStep(s: State, m: State, n: State, t: Token)
    requires s.store.journal <= m.store.journal && HeadsAcknowledged(s, m) && t in m.post.receipts && t in s.post.receipts
    requires m.post.receipts[t] == s.post.receipts[t] && AtHead(m, m.post.receipts[t]) && n.post.receipts == m.post.receipts - {t}
    requires var r := m.post.receipts[t];
             && n.store.journal == m.store.journal + [DeliveryAcknowledged(r.delegate, r.did)]
             && n.store.durable == m.store.durable[r.delegate := m.store.durable[r.delegate].(queue := m.store.durable[r.delegate].queue[1..])]
    ensures HeadsAcknowledged(s, n)
  {
    var r := m.post.receipts[t];
    assert n.store.journal[|m.store.journal|] == DeliveryAcknowledged(r.delegate, r.did);
    forall u | u in s.post.receipts && AtHead(s, s.post.receipts[u])
      ensures (u in n.post.receipts && AtHead(n, s.post.receipts[u])) || AckedSince(s, n, s.post.receipts[u])
    {
      var q := s.post.receipts[u];
      if AckedSince(s, m, q) {
        var k :| |s.store.journal| <= k < |m.store.journal| && m.store.journal[k] == DeliveryAcknowledged(q.delegate, q.did);
        assert n.store.journal[k] == m.store.journal[k];
      } else if q.delegate == r.delegate {
        assert q.did == r.did;
      }
    }
  }

  lemma StaleHeads(s: State, m: State, n: State, t: Token)
    requires HeadsAcknowledged(s, m) && t in m.post.receipts && t in s.post.receipts && m.post.receipts[t] == s.post.receipts[t]
    requires !AtHead(m, m.post.receipts[t]) && n.post.receipts == m.post.receipts - {t} && n.store == m.store
    ensures HeadsAcknowledged(s, n)
  {
    forall u | u in s.post.receipts && AtHead(s, s.post.receipts[u])
      ensures (u in n.post.receipts && AtHead(n, s.post.receipts[u])) || AckedSince(s, n, s.post.receipts[u])
    {
      if AckedSince(s, m, s.post.receipts[u]) { assert AckedSince(s, n, s.post.receipts[u]); }
    }
  }

  lemma QueuesStep(d: Durable, m: Durable, n: Durable, i: Id)
    requires OnlyQueues(d, m) && i in m && m[i].queue != [] && n == m[i := m[i].(queue := m[i].queue[1..])]
    ensures OnlyQueues(d, n)
  {
  }

  lemma StaleRetry(s: State, m: State, t: Token, wake: DeliveryId -> nat, storeOk: bool)
    requires Retried(s, m, wake) && Due(m, t) && (forall u: Token | Due(s, u) && u < t :: Gone(s, m, u)) && !AtHead(m, m.post.receipts[t])
    ensures var n := CompleteDelivery(m, t, true, wake(m.post.receipts[t].did), storeOk);
            Retried(s, n, wake) && n.post.receipts == m.post.receipts - {t}
  {
    var w := wake(m.post.receipts[t].did);
    var n := CompleteDelivery(m, t, true, w, storeOk);
    StaleDeliveryDropped(m, t, w, storeOk);
    hide CompleteDelivery, Told, HeadsAcknowledged, AtHead, ReceiptsRetried, OnlyQueues, Gone;
    ReceiptsStep(s, m, n, t);
    StaleTold(s, m, n, t, wake);
    StaleHeads(s, m, n, t);
  }

  lemma LandedRetry(s: State, m: State, t: Token, wake: DeliveryId -> nat)
    requires Retried(s, m, wake) && Due(m, t) && (forall u: Token | Due(s, u) && u < t :: Gone(s, m, u)) && AtHead(m, m.post.receipts[t])
    ensures var n := CompleteDelivery(m, t, true, wake(m.post.receipts[t].did), true);
            Retried(s, n, wake) && n.post.receipts == m.post.receipts - {t}
  {
    var w := wake(m.post.receipts[t].did);
    var n := CompleteDelivery(m, t, true, w, true);
    DeliveryAcknowledgedExactly(m, t, w);
    hide CompleteDelivery, Told, HeadsAcknowledged, AtHead, WakesOf, ReceiptsRetried, OnlyQueues, Gone;
    ReceiptsStep(s, m, n, t);
    QueuesStep(s.store.durable, m.store.durable, n.store.durable, m.post.receipts[t].delegate);
    ToldStep(s, m, n, t, wake);
    JournalKept(s, m, wake);
    HeadsStep(s, m, n, t);
  }

  /** One more acknowledgement: the least receipt still due goes, or the store refused and nothing changed. */
  lemma RetryStep(s: State, m: State, t: Token, wake: DeliveryId -> nat, storeOk: bool)
    requires Retried(s, m, wake) && Due(m, t) && forall u: Token | Due(s, u) && u < t :: Gone(s, m, u)
    ensures var n := CompleteDelivery(m, t, true, wake(m.post.receipts[t].did), storeOk);
            Retried(s, n, wake) && if t in n.post.receipts then n == m && !storeOk else n.post.receipts == m.post.receipts - {t}
  {
    hide CompleteDelivery, Retried;
    var r := m.post.receipts[t];
    if !AtHead(m, r) { StaleRetry(s, m, t, wake, storeOk); }
    else if storeOk { LandedRetry(s, m, t, wake); }
    else {
      RefusedAcknowledgementStays(m, t, wake(r.did));
      assert m.post.receipts[t := r.(retryable := true)] == m.post.receipts;
    }
  }

  lemma JournalKept(s: State, m: State, wake: DeliveryId -> nat)
    requires Told(s, m, wake)
    ensures s.store.journal <= m.store.journal
  {
  }

  /** Receipts up to the first of `todo` have been seen to. */
  ghost predicate Retrying(s: State, m: State, todo: set<Token>) {
    && s.stop.Some? && todo <= s.stop.value.receipts && (forall t | Due(s, t) && t !in todo :: Gone(s, m, t))
    && (forall t | t in todo && t in s.post.receipts :: t in m.post.receipts)
    && forall t, u | t in todo && u in s.stop.value.receipts && u !in todo :: u < t
  }

  lemma RetryNext(s: State, m: State, todo: set<Token>, t: Token, wake: DeliveryId -> nat, storeOk: bool)
    requires Retried(s, m, wake) && Retrying(s, m, todo) && t in todo && (forall u | u in todo :: t <= u) && Retryable(m, t)
    ensures var n := CompleteDelivery(m, t, true, wake(m.post.receipts[t].did), storeOk);
            Retried(s, n, wake) && if t in n.post.receipts then n == m && !storeOk else Retrying(s, n, todo - {t})
  {
    RetriedReceipts(s, m, wake);
    assert t in m.stop.value.receipts by { assert !Gone(s, m, t); }
    RetryStep(s, m, t, wake, storeOk);
    var n := CompleteDelivery(m, t, true, wake(m.post.receipts[t].did), storeOk);
    RetriedReceipts(s, n, wake);
    hide CompleteDelivery, Retried;
  }

  lemma RetriedReceipts(s: State, n: State, wake: DeliveryId -> nat)
    requires Retried(s, n, wake)
    ensures ReceiptsRetried(s, n)
  {
  }

  lemma RetrySkips(s: State, m: State, todo: set<Token>, t: Token, wake: DeliveryId -> nat)
    requires Retried(s, m, wake) && Retrying(s, m, todo) && t in todo && (forall u | u in todo :: t <= u) && !Retryable(m, t)
    ensures Retrying(s, m, todo - {t})
  {
    RetriedReceipts(s, m, wake);
    hide Retried;
    assert t in s.post.receipts ==> t in m.post.receipts && m.post.receipts[t] == s.post.receipts[t];
  }

  lemma RetryBegins(s: State, wake: DeliveryId -> nat)
    requires s.stop.Some?
    ensures Retried(s, s, wake) && Retrying(s, s, s.stop.value.receipts)
  {
    NothingRetried(s, wake);
    hide Retried;
  }

  lemma RetryEnds(s: State, m: State, wake: DeliveryId -> nat)
    requires Retried(s, m, wake) && Retrying(s, m, {})
    ensures forall t :: !Due(m, t)
  {
    RetriedReceipts(s, m, wake);
    hide Retried;
    forall t ensures !Due(m, t) {
      if t in m.stop.value.receipts { assert !Gone(s, m, t); assert !Due(s, t); }
    }
  }

  // ---- The whole call ----

  /** Only lost runs end, only closed ones are forgotten. */
  ghost predicate RunsLost(s: State, n: State) {
    && n == s.(store := s.store.(journal := n.store.journal, durable := n.store.durable), runs := s.runs.(lost := n.runs.lost))
    && n.store.durable.Keys == s.store.durable.Keys && n.runs.lost <= s.runs.lost
    && (forall l | l in s.runs.lost && l !in n.runs.lost :: !OpenRun(n.store.durable, l.id, l.generation))
    && (forall i | i in s.store.durable ::
          n.store.durable[i] == s.store.durable[i] || (LostRun(s, Lease(i, s.store.durable[i].generation)) && !n.store.durable[i].open))
  }

  /** But for `todo`, a runtime came back for whatever is still lost. */
  ghost predicate LostBut(s: State, todo: set<Lease>) {
    todo <= s.runs.lost && forall l | l in s.runs.lost && l !in todo :: OpenRun(s.store.durable, l.id, l.generation) && LeaseAt(s.runs.live, l.id) == Some(l)
  }

  ghost predicate NoneLost(s: State) {
    forall l | l in s.runs.lost :: OpenRun(s.store.durable, l.id, l.generation) && LeaseAt(s.runs.live, l.id) == Some(l)
  }

  lemma LossBegins(s: State)
    ensures RunsLost(s, s) && LostBut(s, s.runs.lost)
  {
  }

  lemma LostBefore(s: State, m: State, l: Lease)
    requires RunsLost(s, m) && LostRun(m, l)
    ensures LostRun(s, l)
  {
  }

  lemma LossEnds(s: State, m: State, n: State, todo: set<Lease>, l: Lease)
    requires RunsLost(s, m) && LostBut(m, todo) && LostRun(m, l) && RunClosed(m.store.durable, n.store.durable, l)
    requires n == m.(store := m.store.(journal := n.store.journal, durable := n.store.durable))
    ensures RunsLost(s, n) && LostBut(n, todo) && !OpenRun(n.store.durable, l.id, l.generation) && LostRun(s, l)
  {
    hide ShapeOf;
    LostBefore(s, m, l);
  }

  lemma LossForgets(s: State, m: State, todo: set<Lease>, l: Lease)
    requires RunsLost(s, m) && LostBut(m, todo) && !OpenRun(m.store.durable, l.id, l.generation)
    ensures var n := m.(runs := m.runs.(lost := m.runs.lost - {l})); RunsLost(s, n) && LostBut(n, todo - {l})
  {
  }

  lemma LossSkips(m: State, todo: set<Lease>, l: Lease)
    requires LostBut(m, todo) && (l in todo ==> OpenRun(m.store.durable, l.id, l.generation) && LeaseAt(m.runs.live, l.id) == Some(l))
    ensures LostBut(m, todo - {l})
  {
  }

  lemma AllSeen(s: State)
    requires LostBut(s, {})
    ensures NoneLost(s)
  {
  }

  lemma {:induction false} LeastExists(tokens: set<Token>, t: Token)
    requires t in tokens
    ensures exists m | m in tokens :: forall u | u in tokens :: m <= u
    decreases t
  {
    if u :| u in tokens && u < t { LeastExists(tokens, u); }
  }

  /** Why lost runs were left: the store refused, or one of them is stuck. */
  ghost predicate LossBlocked(s: State, answers: nat -> bool) {
    !answers(|s.store.journal|) || exists l :: LostRun(s, l) && Stuck(s.store.durable[l.id])
  }

  /** Every generation the stop covers has ended; at most admissions are left. */
  predicate AllEnded(stop: Option<StopState>) {
    stop.Some? && stop.value.active == {} && stop.value.settlements == {} && OnlyRunsLeft(stop.value)
  }

  /** The completed stop: nothing was left to wait for, and its completion is the last thing journaled. */
  ghost predicate Completes(m: State, n: State) {
    && Done(m) && n == m.(store := m.store.(journal := n.store.journal, durable := n.store.durable), stop := None)
    && n.store.journal == m.store.journal + [StopCompleted(m.stop.value.target, m.stop.value.seqNo)]
  }

  /** Acknowledgements are retried, and the stop completes unless something is left to wait for, the evidence is not clean or the store refuses. */
  ghost predicate Drove(s: State, n: State, completed: bool, clean: bool, wake: DeliveryId -> nat, answers: nat -> bool) {
    if completed then clean && exists m :: Retried(s, m, wake) && Completes(m, n)
    else Retried(s, n, wake) && (answers(|n.store.journal|) ==> (forall t :: !Due(n, t)) && !(clean && Done(n)))
  }

  /** The same state with some lost runs forgotten. */
  function Forgetting(s: State, lost: set<Lease>): State {
    s.(runs := s.runs.(lost := lost))
  }

  /** What a reconciliation leaves: one recovered run; or every lost run ended; or the acknowledgements retried and the stop completed. */
  ghost predicate Reconciled(s: State, n: State, completed: bool, clean: bool, now: nat, wake: DeliveryId -> nat, answers: nat -> bool) {
    if exists l :: Recoverable(s, l) then
      !completed && exists l :: FirstRecoverable(s, l) && if answers(|s.store.journal|) then Recovered(s, n, l, now) else n == s
    else if exists l :: LostRun(s, l) then !completed && RunsLost(s, n) && (NoneLost(n) || LossBlocked(n, answers))
    else
      && n.runs.lost <= s.runs.lost && NoneLost(Forgetting(s, n.runs.lost))
      && if AllEnded(s.stop) then Drove(Forgetting(s, n.runs.lost), n, completed, clean, wake, answers)
         else !completed && n == Forgetting(s, n.runs.lost)
  }

  lemma AfterRecovery(s: State, n: State, l: Lease, clean: bool, now: nat, wake: DeliveryId -> nat, answers: nat -> bool)
    requires FirstRecoverable(s, l) && if answers(|s.store.journal|) then Recovered(s, n, l, now) else n == s
    ensures Reconciled(s, n, false, clean, now, wake, answers) && s.stop.Some? && n.stop.Some?
  {
    hide Recovered, OnlyRunsLeft;
    if answers(|s.store.journal|) { RecoveredKeepsStop(s, n, l, now); }
  }

  lemma RecoveredKeepsStop(s: State, n: State, l: Lease, now: nat)
    requires Recovered(s, n, l, now)
    ensures s.stop.Some? && n.stop.Some?
  {
  }

  lemma AfterLoss(s: State, n: State, clean: bool, now: nat, wake: DeliveryId -> nat, answers: nat -> bool)
    requires (forall l :: !Recoverable(s, l)) && (exists l :: LostRun(s, l)) && RunsLost(s, n) && (NoneLost(n) || LossBlocked(n, answers))
    ensures Reconciled(s, n, false, clean, now, wake, answers) && n.stop == s.stop
  {
    hide Recoverable, LostRun, NoneLost, LossBlocked;
  }

  lemma NoLosses(s: State, n: State)
    requires RunsLost(s, n) && NoneLost(n) && n.store == s.store
    ensures n == Forgetting(s, n.runs.lost) && n.runs.lost <= s.runs.lost && forall l :: !LostRun(s, l)
  {
  }

  lemma AfterIdle(s: State, n: State, clean: bool, now: nat, wake: DeliveryId -> nat, answers: nat -> bool)
    requires (forall l :: !Recoverable(s, l)) && (forall l :: !LostRun(s, l)) && NoneLost(n) && n.runs.lost <= s.runs.lost && n == Forgetting(s, n.runs.lost)
    requires !AllEnded(s.stop)
    ensures Reconciled(s, n, false, clean, now, wake, answers)
  {
    hide Recoverable, LostRun, NoneLost, AllEnded;
  }

  lemma AfterDrive(s: State, m: State, n: State, completed: bool, clean: bool, now: nat, wake: DeliveryId -> nat, answers: nat -> bool)
    requires (forall l :: !Recoverable(s, l)) && (forall l :: !LostRun(s, l)) && NoneLost(m) && m.runs.lost <= s.runs.lost && m == Forgetting(s, m.runs.lost)
    requires AllEnded(s.stop) && n.runs == m.runs && Drove(m, n, completed, clean, wake, answers)
    ensures Reconciled(s, n, completed, clean, now, wake, answers)
  {
    hide Recoverable, LostRun, NoneLost, AllEnded, Drove;
  }

  lemma RetriedKeeps(s: State, n: State, wake: DeliveryId -> nat)
    requires Retried(s, n, wake)
    ensures n.runs == s.runs && s.stop.Some? && n.stop.Some? && n.stop.value == s.stop.value.(receipts := n.stop.value.receipts)
    ensures OnlyQueues(s.store.durable, n.store.durable)
  {
  }

  /** A member without a lease is not active. */
  lemma NoneActive(live: map<Id, Live>, members: set<Id>)
    ensures ActiveIn(live, members) == {} ==> forall i | i in members :: LeaseAt(live, i).None?
  {
    forall i | i in members && LeaseAt(live, i).Some? ensures LeaseAt(live, i).value in ActiveIn(live, members) { }
  }

  lemma MembersAtRest(s: State)
    requires StopShape(s.stop, s.store.durable) && ActiveExact(s.stop, s.runs.live) && Accounted(s.runs, s.store.durable) && NoneLost(s) && AllEnded(s.stop)
    ensures forall i | i in s.stop.value.members :: i in s.store.durable && !s.store.durable[i].open
  {
    NoneActive(s.runs.live, s.stop.value.members);
    hide OnlyRunsLeft, ActiveIn, LeaseAt;
  }

  /** With the store answering, no run to recover and none lost, the stop completes exactly when every generation has ended, every admission it
      still waits for is its own to acknowledge, no member owes a wake and the evidence is clean. */
  lemma CompletesExactly(s: State, n: State, completed: bool, clean: bool, now: nat, wake: DeliveryId -> nat, answers: nat -> bool)
    requires Reconciled(s, n, completed, clean, now, wake, answers) && (forall k :: answers(k))
    requires s.stop.Some? && (forall l :: !Recoverable(s, l)) && (forall l :: !LostRun(s, l))
    ensures completed <==>
            && clean && AllEnded(s.stop) && (forall t | t in s.stop.value.receipts :: Due(s, t))
            && forall i | i in s.stop.value.members :: WakesOf(n, i) == {}
    ensures AllEnded(s.stop) ==> forall t | Due(s, t) :: t !in n.post.receipts
  {
    hide Drove, NoneLost, RunsLost, OnlyRunsLeft, Recoverable, LostRun, WakesOf;
    if AllEnded(s.stop) {
      var lost := n.runs.lost;
      if completed { CompletedExactly(Forgetting(s, lost), n, clean, wake, answers); } else { PendingExactly(Forgetting(s, lost), n, clean, wake, answers); }
      assert forall t :: Due(Forgetting(s, lost), t) <==> Due(s, t);
    }
  }

  lemma CompletedExactly(s: State, n: State, clean: bool, wake: DeliveryId -> nat, answers: nat -> bool)
    requires Drove(s, n, true, clean, wake, answers) && AllEnded(s.stop)
    ensures clean && (forall t | t in s.stop.value.receipts :: Due(s, t)) && (forall t | Due(s, t) :: t !in n.post.receipts)
    ensures forall i | i in s.stop.value.members :: WakesOf(n, i) == {}
  {
    hide Retried, OnlyRunsLeft;
    var m :| Retried(s, m, wake) && Completes(m, n);
    RetriedReceipts(s, m, wake);
    RetriedKeeps(s, m, wake);
    forall t | t in s.stop.value.receipts ensures Due(s, t) && t !in n.post.receipts { assert t !in m.stop.value.receipts; assert Gone(s, m, t); }
    forall i | i in s.stop.value.members ensures WakesOf(n, i) == {} { assert WakesOf(m, i) == {}; }
  }

  lemma PendingExactly(s: State, n: State, clean: bool, wake: DeliveryId -> nat, answers: nat -> bool)
    requires Drove(s, n, false, clean, wake, answers) && AllEnded(s.stop) && forall k :: answers(k)
    ensures forall t | Due(s, t) :: t !in n.post.receipts
    ensures !(&& clean && (forall t | t in s.stop.value.receipts :: Due(s, t)) && forall i | i in s.stop.value.members :: WakesOf(n, i) == {})
  {
    hide Retried, WakesOf;
    RetriedReceipts(s, n, wake);
    RetriedKeeps(s, n, wake);
    assert answers(|n.store.journal|);
    forall t | Due(s, t) ensures Gone(s, n, t) { assert !Due(n, t); }
    if forall t | t in s.stop.value.receipts :: Due(s, t) { assert n.stop.value.receipts == {}; }
  }
}
