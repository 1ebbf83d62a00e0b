/** What the controller's batches do to the durable records, and nothing else. */
module Effects {
  import opened Types
  import opened Tree
  import opened Journal
  import opened JournalLaws
  import opened State
  import opened Settle
  import opened Finishing
  import opened Starting

  /** The journal and the records agree. */
  ghost predicate JournalInv(journal: seq<Event>, d: Durable) {
    Fold(journal) == Some(d) && WellFormed(d, |journal|)
  }

  lemma AppendEffect(s: State, batch: seq<Event>, storeOk: bool)
    requires JournalInv(s.store.journal, s.store.durable) && Append(s, batch, storeOk).Some?
    ensures var n := Append(s, batch, storeOk).value;
            && n == s.(store := s.store.(journal := s.store.journal + batch, durable := n.store.durable))
            && ApplyBatch(s.store.durable, |s.store.journal|, batch) == Some(n.store.durable)
            && JournalInv(n.store.journal, n.store.durable)
  {
    hide Apply, WellFormed;
    var n := Append(s, batch, storeOk).value;
    FoldBatch(s.store.journal, s.store.durable, batch);
    BatchKeepsWellFormed(s.store.durable, |s.store.journal|, batch, n.store.durable);
  }

  lemma OneEvent(d: Durable, n: nat, e: Event)
    ensures ApplyBatch(d, n, [e]) == Apply(d, n + 1, e)
  {
    assert [e][..0] == [];
  }

  lemma TwoEvents(d: Durable, n: nat, e: Event, f: Event)
    ensures ApplyBatch(d, n, [e, f]) == (if Apply(d, n + 1, e).None? then None else Apply(Apply(d, n + 1, e).value, n + 2, f))
  {
    assert [e, f][..1] == [e];
    OneEvent(d, n, e);
  }

  // ---- Runs ----

  /** Same place in the tree, same run. */
  predicate SameRun(a: Aggregate, b: Aggregate) {
    && a.parent == b.parent && a.born == b.born
    && a.generation == b.generation && a.trigger == b.trigger && a.open == b.open
  }

  /** The same delegates with the same runs, whatever the stop marks. */
  ghost predicate SameWork(d: Durable, d': Durable) {
    && d'.Keys == d.Keys && ShapeOf(d') == ShapeOf(d)
    && forall i | i in d :: SameRun(d[i], d'[i])
  }

  ghost predicate SameRuns(d: Durable, d': Durable) {
    SameWork(d, d') && forall i | i in d :: d'[i].pendingStop == d[i].pendingStop
  }

  /** Queues only grow at the tail. */
  ghost predicate QueuesGrow(d: Durable, d': Durable) {
    forall i | i in d :: i in d' && d[i].queue <= d'[i].queue
  }

  /** The run `l` ended; nothing else about any run changed. */
  ghost predicate RunClosed(d: Durable, d': Durable, l: Lease) {
    && d'.Keys == d.Keys && ShapeOf(d') == ShapeOf(d) && l.id in d && !d'[l.id].open
    && (forall i | i in d && i != l.id :: d'[i] == d[i])
    && SameRun(d[l.id].(open := false), d'[l.id]) && d'[l.id].pendingStop == d[l.id].pendingStop
  }

  /** No run opens, nothing moves in the tree. */
  ghost predicate Calmer(d: Durable, d': Durable) {
    && d'.Keys == d.Keys && ShapeOf(d') == ShapeOf(d)
    && forall i | i in d && d'[i].open :: d[i].open && d[i].generation == d'[i].generation
  }

  /** An event that ends, prepares or closes the run `l`. */
  predicate Closing(e: Event, l: Lease) {
    match e
    case TerminalPrepared(id, g, _) => id == l.id && g == l.generation
    case RunFinished(id, g, _, _, _, _) => id == l.id && g == l.generation
    case ResumabilityClosed(id) => id == l.id
    case _ => false
  }

  ghost predicate ClosingBatch(batch: seq<Event>, l: Lease) {
    && (forall k | 0 <= k < |batch| :: Closing(batch[k], l))
    && exists k | 0 <= k < |batch| :: batch[k].RunFinished?
  }

  lemma ClosingStep(d: Durable, n: nat, e: Event, l: Lease, d': Durable)
    requires Closing(e, l) && Apply(d, n, e) == Some(d')
    ensures d'.Keys == d.Keys && l.id in d && d' == d[l.id := d'[l.id]]
    ensures d[l.id].queue <= d'[l.id].queue
    ensures e.RunFinished? ==> !d'[l.id].open
    ensures d'[l.id].open ==> d[l.id].open
    ensures SameRun(d[l.id].(open := false), d'[l.id].(open := false)) && d'[l.id].pendingStop == d[l.id].pendingStop
  {
  }

  lemma {:induction false} ClosingPrefix(d: Durable, n: nat, batch: seq<Event>, l: Lease, d': Durable)
    requires (forall k | 0 <= k < |batch| :: Closing(batch[k], l)) && ApplyBatch(d, n, batch) == Some(d') && l.id in d
    ensures d'.Keys == d.Keys && d' == d[l.id := d'[l.id]]
    ensures d[l.id].queue <= d'[l.id].queue
    ensures d'[l.id].open ==> d[l.id].open && forall k | 0 <= k < |batch| :: !batch[k].RunFinished?
    ensures SameRun(d[l.id].(open := false), d'[l.id].(open := false)) && d'[l.id].pendingStop == d[l.id].pendingStop
  {
    if batch != [] {
      var init := batch[..|batch| - 1];
      var mid := ApplyBatch(d, n, init).value;
      ClosingPrefix(d, n, init, l, mid);
      ClosingStep(mid, n + |batch|, batch[|batch| - 1], l, d');
      forall k | 0 <= k < |batch| && d'[l.id].open ensures !batch[k].RunFinished? {
        if k < |init| { assert init[k] == batch[k]; }
      }
    }
  }

  lemma FinishEffect(d: Durable, n: nat, batch: seq<Event>, l: Lease, d': Durable)
    requires ClosingBatch(batch, l) && ApplyBatch(d, n, batch) == Some(d') && l.id in d
    ensures RunClosed(d, d', l) && QueuesGrow(d, d')
  {
    ClosingPrefix(d, n, batch, l, d');
    assert ShapeOf(d') == ShapeOf(d);
  }

  lemma GenerationClosing(a: Aggregate, l: Lease, finish: Finish, endedAt: nat)
    requires a.phase == Running || (a.phase == Settling && a.prepared.Some?)
    ensures ClosingBatch(GenerationEvents(a, l, finish, endedAt), l)
  {
    var batch := GenerationEvents(a, l, finish, endedAt);
    assert batch[0].RunFinished? || (|batch| > 1 && batch[1].RunFinished?);
  }

  lemma StoppedClosing(l: Lease, packet: Option<Packet>, endedAt: nat)
    ensures ClosingBatch([StoppedFinishEvent(l, packet, endedAt)], l)
  {
    assert [StoppedFinishEvent(l, packet, endedAt)][0].RunFinished?;
  }

  lemma StartFailureClosing(l: Lease, failure: Finish, now: nat, close: bool)
    ensures ClosingBatch(StartFailureEvents(l, failure, now), l)
    ensures ClosingBatch(StartFailureEvents(l, failure, now) + (if close then [ResumabilityClosed(l.id)] else []), l)
  {
    var batch := StartFailureEvents(l, failure, now);
    assert batch[1].RunFinished?;
    assert (batch + (if close then [ResumabilityClosed(l.id)] else []))[1].RunFinished?;
  }

  lemma LostClosing(l: Lease, a: Aggregate, now: nat)
    requires LostEvents(l, a, now).Some?
    ensures ClosingBatch(LostEvents(l, a, now).value, l)
  {
    var batch := LostEvents(l, a, now).value;
    assert batch[0].RunFinished? || (|batch| > 1 && batch[1].RunFinished?);
  }

  // ---- Single events ----

  lemma QuietEffect(d: Durable, n: nat, e: Event, d': Durable)
    requires Apply(d, n, e) == Some(d') && (e.TerminalPrepared? || e.ResumabilityClosed? || e.UpdatePosted?)
    ensures SameRuns(d, d') && QueuesGrow(d, d')
  {
    LocalTouchesOne(d, n, e, d');
  }

  /** An acknowledgement pops one head and changes nothing else. */
  lemma AckEffect(d: Durable, n: nat, e: Event, d': Durable)
    requires Apply(d, n, e) == Some(d') && e.DeliveryAcknowledged?
    ensures SameRuns(d, d') && e.id in d && d[e.id].queue != [] && d[e.id].queue[0].did == e.acked
    ensures forall i | i in d :: d'[i].queue == if i == e.id then d[i].queue[1..] else d[i].queue
  {
    LocalTouchesOne(d, n, e, d');
  }

  // ---- Starts ----

  /** The run the reservation names is open, in the place its record or the reservation gives it. */
  ghost predicate RunOpened(d: Durable, d': Durable, r: Reservation, born: nat) {
    && d'.Keys == d.Keys + {r.id}
    && (forall i | i in d && i != r.id :: d'[i] == d[i])
    && d'[r.id].open && d'[r.id].generation == r.generation && d'[r.id].trigger == r.trigger && d'[r.id].pendingStop == 0
    && (if r.create
        then r.id !in d && r.id != NO_ID && d'[r.id].queue == [] && ShapeOf(d') == ShapeOf(d)[r.id := Node(r.parent, born)]
             && (r.parent == NO_ID || r.parent in d)
        else r.id in d && !d[r.id].open && d[r.id].pendingStop == 0 && r.generation == d[r.id].generation + 1 && d'[r.id].queue == d[r.id].queue && ShapeOf(d') == ShapeOf(d))
  }

  lemma CreationOpens(d: Durable, n: nat, r: Reservation, d': Durable)
    requires r.create && ApplyBatch(d, n, StartEvents(r)) == Some(d')
    ensures RunOpened(d, d', r, n + 1)
  {
    var e, run := Created(r.id, r.parent, true), RunStarted(r.id, r.generation, r.trigger);
    assert StartEvents(r) == [e, run];
    TwoEvents(d, n, e, run);
    var mid := Apply(d, n + 1, e).value;
    hide ApplyBatch;
    CreatedShape(d, n + 1, e, mid);
    LocalTouchesOne(mid, n + 2, run, d');
    hide ShapeOf;
  }

  lemma RestartOpens(d: Durable, n: nat, r: Reservation, d': Durable)
    requires !r.create && WellFormed(d, n) && ApplyBatch(d, n, StartEvents(r)) == Some(d')
    ensures RunOpened(d, d', r, n + 1)
  {
    var run := RunStarted(r.id, r.generation, r.trigger);
    assert StartEvents(r) == [run];
    OneEvent(d, n, run);
    LocalTouchesOne(d, n + 1, run, d');
    assert AggregateOk(r.id, d[r.id], n);
    hide ApplyBatch, ShapeOf, WellFormed, QueueOk;
  }

  lemma StartEffect(d: Durable, n: nat, r: Reservation, d': Durable)
    requires WellFormed(d, n) && ApplyBatch(d, n, StartEvents(r)) == Some(d')
    ensures RunOpened(d, d', r, n + 1)
  {
    hide RunOpened, ApplyBatch, WellFormed, StartEvents;
    if r.create { CreationOpens(d, n, r, d'); } else { RestartOpens(d, n, r, d'); }
  }

  // ---- Stops ----

  lemma StopRequestEffect(d: Durable, n: nat, target: Id, d': Durable)
    requires WellFormed(d, n) && Apply(d, n + 1, StopRequested(target)) == Some(d')
    ensures SameWork(d, d') && (forall i | i in d :: d'[i].queue == d[i].queue)
    ensures StopMembers(d', n + 1) == Subtree(ShapeOf(d), target) && target in d
    ensures forall i | i in d' && d'[i].pendingStop != 0 :: i in StopMembers(d', n + 1)
  {
    StopRequestedMarks(d, n + 1, StopRequested(target), d');
  }

  /** Completion clears every mark; a queue is dropped exactly when its owner was covered. */
  lemma StopCompleteEffect(d: Durable, n: nat, e: Event, d': Durable)
    requires WellFormed(d, n) && e.StopCompleted? && Apply(d, n + 1, e) == Some(d')
    ensures SameWork(d, d') && (forall i | i in d' :: d'[i].pendingStop == 0)
    ensures forall i | i in d :: d'[i].queue == if d[i].parent in StopMembers(d, e.requestSeq) then [] else d[i].queue
    ensures forall i | i in StopMembers(d, e.requestSeq) :: !d[i].open
  {
    hide StopMembers;
    CompletionClearsMarks(d, n, e, d');
    CompletionKeepsRuns(d, n + 1, e, d');
    forall i | i in d ensures d'[i].queue == if d[i].parent in StopMembers(d, e.requestSeq) then [] else d[i].queue {
      CompletionFiltersQueues(d, n + 1, e, d', i);
      assert AggregateOk(i, d[i], n);
      KeepsAll(d[i].queue, StopMembers(d, e.requestSeq), d[i].parent);
    }
  }

  lemma CompletionKeepsRuns(d: Durable, n: nat, e: Event, d': Durable)
    requires e.StopCompleted? && Apply(d, n, e) == Some(d')
    ensures SameWork(d, d') && forall i | i in StopMembers(d, e.requestSeq) :: !d[i].open
  {
    hide KeepUncovered;
  }
}
