/** What the main operations achieve when they go through, in terms of records, queues and tables rather than of their bodies. */
module Outcomes {
  import SteerProjection
  import opened Types
  import opened Tree
  import opened Journal
  import opened State
  import opened Settle
  import opened Finishing
  import opened Claims
  import opened Delivering
  import opened Stopping
  import opened Effects
  import opened Invariants
  import opened StartKept
  import opened Writes

  // ---- Finishing ----

  /** A report in the queue of `id`, behind everything queued before. */
  predicate Reports(d: Durable, d': Durable, id: Id, generation: nat, packet: Packet) {
    id in d && id in d' && d'[id].queue == d[id].queue + [Pending(Report(id, generation), generation, d[id].parent, packet)]
  }

  lemma PreparedThenFinished(d: Durable, n: nat, l: Lease, packet: Packet, f: Event, d': Durable)
    requires f.RunFinished? && f.id == l.id && f.generation == l.generation && f.finishPacket.None? && f.disposition != CompletedNoAction
    requires ApplyBatch(d, n, [TerminalPrepared(l.id, l.generation, packet), f]) == Some(d')
    ensures l.id in d && l.id in d' && d'[l.id].outcome == Some(f.outcome) && !d'[l.id].open && Reports(d, d', l.id, l.generation, packet)
  {
    var e := TerminalPrepared(l.id, l.generation, packet);
    TwoEvents(d, n, e, f);
    var mid := Apply(d, n + 1, e).value;
    assert mid[l.id].phase == Settling && mid[l.id].prepared == Some(packet) && mid[l.id].queue == d[l.id].queue;
  }

  lemma PreparedFinishClosed(d: Durable, n: nat, l: Lease, packet: Packet, f: Event, rest: seq<Event>, d': Durable)
    requires f.RunFinished? && f.id == l.id && f.generation == l.generation && f.finishPacket.None? && f.disposition != CompletedNoAction
    requires rest == [] || rest == [ResumabilityClosed(l.id)]
    requires ApplyBatch(d, n, [TerminalPrepared(l.id, l.generation, packet), f] + rest) == Some(d')
    ensures l.id in d && l.id in d' && d'[l.id].outcome == Some(f.outcome) && !d'[l.id].open && Reports(d, d', l.id, l.generation, packet)
  {
    var head := [TerminalPrepared(l.id, l.generation, packet), f];
    if rest == [] {
      assert head + rest == head;
      PreparedThenFinished(d, n, l, packet, f, d');
    } else {
      assert (head + rest)[..2] == head;
      var mid := ApplyBatch(d, n, head).value;
      PreparedThenFinished(d, n, l, packet, f, mid);
    }
  }

  /** The packet, outcome and reason a running generation's own finish settles to. */
  function SettlesTo(finish: Finish): (Packet, Status, Reason) {
    if finish.outcome == Some(Completed) && finish.packet.None? then (MISSING, Failed, MissingTerminal)
    else (if finish.packet.Some? then finish.packet.value else ReasonPacket(finish.reason), StatusOr(finish.outcome, Failed), finish.reason)
  }

  /** A running generation's finish records the outcome it reports and queues its packet to the owner;
      a completion without a packet is recorded and reported as a missing terminal. */
  lemma RunningFinishReports(s: State, l: Lease, finish: Finish, endedAt: nat, d': Durable)
    requires l.id in s.store.durable && finish.disposition != Some(CompletedNoAction)
    requires ApplyBatch(s.store.durable, |s.store.journal|, RunningEvents(l, finish, endedAt)) == Some(d')
    ensures var (packet, status, reason) := SettlesTo(finish);
            && Reports(s.store.durable, d', l.id, l.generation, packet) && !d'[l.id].open
            && d'[l.id].outcome.Some? && d'[l.id].outcome.value.status == status && d'[l.id].outcome.value.reason == reason
  {
    hide Apply, ApplyBatch;
    var batch := RunningEvents(l, finish, endedAt);
    var rest := batch[2..];
    assert batch == [batch[0], batch[1]] + rest;
    assert rest == [] || rest == [ResumabilityClosed(l.id)];
    PreparedFinishClosed(s.store.durable, |s.store.journal|, l, SettlesTo(finish).0, batch[1], rest, d');
  }

  /** A stopping run ends stopped by its parent, whatever it says; an owner outside the stop is told so, one inside is not. */
  lemma StoppedFinishReports(d: Durable, n: nat, l: Lease, packet: Option<Packet>, endedAt: nat, d': Durable)
    requires l.id in d && d[l.id].phase == Stopping && ApplyBatch(d, n, [StoppedFinishEvent(l, packet, endedAt)]) == Some(d')
    ensures l.id in d' && !d'[l.id].open && d'[l.id].outcome == Some(Outcome(Stopped, StoppedByParent, endedAt, None))
    ensures if OwnerCovered(d, d[l.id]) then d'[l.id].queue == d[l.id].queue
            else StoppedPacket(packet).kind == TerminalErrorPacket ==> Reports(d, d', l.id, l.generation, StoppedPacket(packet))
  {
    OneEvent(d, n, StoppedFinishEvent(l, packet, endedAt));
  }

  /** The slot of one kind is back, the other kind untouched. */
  predicate SlotReturned(s: State, n: State, drive: bool) {
    if drive then n.runs.drives == s.runs.drives - 1 && n.runs.turns == s.runs.turns
    else n.runs.turns == s.runs.turns - 1 && n.runs.drives == s.runs.drives
  }

  /** No lease and no settlement claim of `id`. */
  predicate Released(n: State, id: Id) {
    LeaseAt(n.runs.live, id).None? && forall t | t in n.tables.settlements :: n.tables.settlements[t].lease.id != id
  }

  lemma ReleaseFrees(a: State, l: Lease)
    requires l.id in a.store.durable && LeaseAt(a.runs.live, l.id) == Some(l)
    requires if a.store.durable[l.id].trigger == AttentionTrigger then a.runs.drives > 0 else a.runs.turns > 0
    ensures var n := ReleaseGeneration(a, l);
            n.store == a.store && Released(n, l.id) && SlotReturned(a, n, a.store.durable[l.id].trigger == AttentionTrigger)
  {
    hide KeptSteering, KeptModels, UntrackGeneration, CarriedSteers, SteersReleased, EvidenceGrows, SameWaiters, OnlyGeneration;
  }

  /** What a landed closing batch leaves for the release: the same tables, the same trigger, a taken slot. */
  lemma ClosingLands(s: State, l: Lease, batch: seq<Event>)
    requires CoreInv(s) && ExactLease(s, l) && ClosingBatch(batch, l) && Append(s, batch, true).Some?
    ensures var a := Append(s, batch, true).value;
            && a.runs == s.runs && a.store.journal == s.store.journal + batch && l.id in a.store.durable && l.id in s.store.durable
            && a.store.durable[l.id].trigger == s.store.durable[l.id].trigger
            && (if a.store.durable[l.id].trigger == AttentionTrigger then a.runs.drives > 0 else a.runs.turns > 0)
  {
    SlotIsTaken(s, l);
    CoreJournal(s);
    hide CoreInv, JournalInv, ApplyBatch, ClosingBatch, Append, RunClosed, QueuesGrow;
    AppendEffect(s, batch, true);
    var a := Append(s, batch, true).value;
    FinishEffect(s.store.durable, |s.store.journal|, batch, l, a.store.durable);
    ClosedKeepsTrigger(s.store.durable, a.store.durable, l);
  }

  /** A landed finish leaves the run unbound and unclaimed, its slot back, and the journal longer by exactly its batch. */
  lemma FinishReleases(s: State, l: Lease, batch: seq<Event>, latch: Latch)
    requires CoreInv(s) && ExactLease(s, l) && ClosingBatch(batch, l) && Append(s, batch, true).Some?
    ensures var n := FinishWith(s, l, batch, true, latch);
            && n.store.journal == s.store.journal + batch && Released(n, l.id)
            && SlotReturned(s, n, s.store.durable[l.id].trigger == AttentionTrigger)
  {
    hide CoreInv, ClosingBatch, ReleaseGeneration, Append, Released, SteersReleased, EvidenceGrows, SameWaiters, OnlyGeneration, OnlyRunEnds;
    ClosingLands(s, l, batch);
    ReleaseFrees(Append(s, batch, true).value, l);
  }

  lemma ClosedKeepsTrigger(d: Durable, d': Durable, l: Lease)
    requires RunClosed(d, d', l)
    ensures l.id in d' && d'[l.id].trigger == d[l.id].trigger
  {
  }

  lemma CoreJournal(s: State)
    requires CoreInv(s)
    ensures JournalInv(s.store.journal, s.store.durable)
  {
    hide JournalInv, BindInv, ResInv, SettleInv, IndexExact, TokInv, TrackInv, CapInv, StopShape;
  }

  lemma SlotIsTaken(s: State, l: Lease)
    requires CoreInv(s) && ExactLease(s, l)
    ensures if s.store.durable[l.id].trigger == AttentionTrigger then s.runs.drives > 0 else s.runs.turns > 0
  {
    hide JournalInv, BindInv, ResInv, SettleInv, IndexExact, TokInv, TrackInv, StopShape, Slots;
    assert l.id in Bound(s.runs.live, s.store.durable, s.store.durable[l.id].trigger == AttentionTrigger);
  }

  // ---- Starting ----

  /** A landed commit leaves exactly one lease more: open, bound, owing a report unless attention started it. */
  lemma CommitOpens(s: State, n: State, t: Token)
    requires Committed(s, n, t)
    ensures var r := s.runs.reservations[t];
            && t !in n.runs.reservations && OpenRun(n.store.durable, r.id, r.generation) && n.store.durable[r.id].trigger == r.trigger
            && LeaseAt(n.runs.live, r.id) == Some(Lease(r.id, r.generation))
            && (EvidenceAt(n.runs.live, r.id).reportRequired <==> r.trigger != AttentionTrigger)
            && (r.waiter != 0 ==> WaitersAt(n.runs.live, r.id)[r.generation := r.waiter] == WaitersAt(n.runs.live, r.id))
            && forall i | i != r.id :: LeaseAt(n.runs.live, i) == LeaseAt(s.runs.live, i)
  {
    hide JournalInv, ShapeOf;
    var r := s.runs.reservations[t];
    OpenedLeases(s.runs.live, n.runs.live, r, if r.id in s.runs.live then s.runs.live[r.id] else NO_LIVE);
  }

  // ---- Steering ----

  /** A durable steer joins the end of the line of its own running generation; one a stop fenced is carried; any other is dropped. */
  lemma SteerIsAdmitted(s: State, t: Token)
    requires t in s.tables.steering && s.tables.steering[t].lease.id in s.runs.live
    ensures var c, n := s.tables.steering[t], CompleteSteer(s, t);
            var fenced, admitted := s.stop.Some? && t in s.stop.value.steering, Admitted(s, c.lease);
            && t !in n.tables.steering
            && SteersAt(n.runs.live, c.lease.id) == SteersAt(s.runs.live, c.lease.id) +
                 (if admitted && s.runs.live[c.lease.id].binding.value.runtime == c.runtime then [Steer(c.entry, false)]
                  else if !admitted && fenced then [Steer(c.entry, true)] else [])
            && forall i | i != c.lease.id :: SteersAt(n.runs.live, i) == SteersAt(s.runs.live, i)
  {
    hide Reclaimed, Fenced;
    var c := s.tables.steering[t];
    assert SteersAt(s.runs.live, c.lease.id) + [] == SteersAt(s.runs.live, c.lease.id);
  }

  /** A request claims every steer admitted so far, in order. */
  lemma RequestClaimsAll(s: State, l: Lease)
    requires BeginModel(s, l) != s
    ensures var n := BeginModel(s, l); var t := n.nextToken;
            t in n.tables.models && n.tables.models[t].lease == l && n.tables.models[t].entries == Entries(SteersAt(s.runs.live, l.id))
  {
    hide Reclaimed, Fenced, HasSettlement;
  }

  /** A completed request takes out exactly the claimed steers its history holds, and owes a report once it took one. */
  lemma RequestTakesExactly(s: State, t: Token, history: seq<SteerProjection.Turn>, st: Steer)
    requires t in s.tables.models && Admitted(s, s.tables.models[t].lease)
    requires s.runs.live[s.tables.models[t].lease.id].binding.value.runtime == s.tables.models[t].runtime
    ensures var c, n := s.tables.models[t], CompleteModel(s, t, history);
            && t !in n.tables.models
            && (st in SteersAt(n.runs.live, c.lease.id) <==> st in SteersAt(s.runs.live, c.lease.id) && !(st.entry in c.entries && SteerProjection.Holds(history, st.entry)))
            && (EvidenceAt(n.runs.live, c.lease.id).reportRequired <==>
                  EvidenceAt(s.runs.live, c.lease.id).reportRequired || exists e | e in c.entries :: SteerProjection.Holds(history, e))
  {
    hide Reclaimed, Fenced, Unbind, BoundBy, LateIds;
    var c := s.tables.models[t];
    UnbindKeeps(s.runs.live[c.lease.id].steers, BoundBy(s, c, history), st);
    BoundByExactly(s, c, history, st.entry);
    BoundAny(s, c, history);
  }

  lemma BoundAny(s: State, c: ModelClaim, history: seq<SteerProjection.Turn>)
    ensures BoundBy(s, c, history) != {} <==> exists e | e in c.entries :: SteerProjection.Holds(history, e)
  {
    forall e ensures e in BoundBy(s, c, history) <==> e in c.entries && SteerProjection.Holds(history, e) { BoundByExactly(s, c, history, e); }
    hide BoundBy;
    if BoundBy(s, c, history) != {} { var e :| e in BoundBy(s, c, history); }
  }

  // ---- Deliveries ----

  /** A posted update goes to the end of the queue, named by its journal sequence, addressed to the parent. */
  lemma UpdateIsQueued(s: State, l: Lease, note: Packet)
    requires PostUpdate(s, l, note, true) != s
    ensures var n := PostUpdate(s, l, note, true); var seqNo := |s.store.journal| + 1;
            && l.id in s.store.durable && l.id in n.store.durable
            && n.store.durable[l.id].queue == s.store.durable[l.id].queue
                 + [Pending(Update(l.id, seqNo), l.generation, s.store.durable[l.id].parent, note.(kind := UpdatePacket))]
  {
    hide Admitted, HasSettlement;
    OneEvent(s.store.durable, |s.store.journal|, UpdatePosted(l.id, l.generation, note));
  }

  /** A plan claims its delivery, and with it a batch that is exactly what the queue holds ahead of it. */
  lemma PlanClaimsQueuePrefix(s: State, id: Id, did: DeliveryId)
    requires PlanDelivery(s, id, did) != s && Minted(s.post.parcels.Keys, s.nextToken)
    ensures var n := PlanDelivery(s, id, did); var t := n.nextToken;
            && id in s.store.durable && t !in s.post.parcels && t in n.post.parcels && ClaimIs(n, did, t)
            && var p, q := n.post.parcels[t], s.store.durable[id].queue;
            && p.did == did && p.delegate == id && |q| > |p.carried| && p.carried == q[..|p.carried|]
            && q[|p.carried|].did == did && p.packet == q[|p.carried|].packet && p.owner == q[|p.carried|].owner
            && (p.carried != [] ==> ClaimIs(n, p.carried[0].did, t) && ClaimIs(s, p.carried[0].did, p.heldClaim))
  {
    hide DeliveryStopped, ReceiverOf, ColdDeliveryWork, Unregister;
    assert Plannable(s, id, did);
    var q := s.store.durable[id].queue;
    var at := IndexIn(q, did);
    assert |q[..at]| == at && (at > 0 ==> q[..at][0] == q[0]);
  }

  /** An acknowledgement that lands pops its head, drops its receipt, and leaves the owner's wake unless the reply was inline. */
  lemma AcknowledgementLands(s: State, t: Token, wake: nat)
    requires JournalInv(s.store.journal, s.store.durable) && CompleteDelivery(s, t, true, wake, true).store != s.store
    ensures t in s.post.receipts
    ensures var n, r := CompleteDelivery(s, t, true, wake, true), s.post.receipts[t];
            && t !in n.post.receipts && Acked(s, n, r)
            && (!r.inline && r.owner in s.store.durable && r.owner != NO_ID && wake != 0 ==> wake in WakesOf(n, r.owner))
  {
    CompleteDeliveryWrites(s, t, true, wake, true);
    hide JournalInv, Append, RestoreHeld, Acked, Wrote;
  }
}
