/** Laws of every journal the fold accepts. */
module JournalLaws {
  import opened Types
  import opened Tree
  import opened Journal

  // ---- Well-formed durable records ----

  predicate DidOk(i: Id, a: Aggregate, n: nat, did: DeliveryId) {
    match did
    case Report(j, g) => j == i && 1 <= g <= a.generation && (g == a.generation ==> !a.open)
    case Update(j, s) => j == i && s <= n
  }

  /** A report carries its own generation; updates and reports tell themselves apart. */
  predicate PendingOk(p: Pending) {
    (p.did.Report? ==> p.generation == p.did.generation) && (p.did.Update? <==> p.packet.kind == UpdatePacket)
  }

  ghost predicate QueueOk(i: Id, a: Aggregate, n: nat) {
    && (forall k | 0 <= k < |a.queue| :: a.queue[k].owner == a.parent && DidOk(i, a, n, a.queue[k].did) && PendingOk(a.queue[k]))
    && (forall j, k | 0 <= j < k < |a.queue| :: a.queue[j].did != a.queue[k].did)
  }

  /** Phase, open run, resumability and pending stop agree. */
  predicate PhaseOk(a: Aggregate) {
    && (a.phase == Running ==> a.open && a.prepared.None?)
    && (a.phase == Settling ==> a.open && a.prepared.Some?)
    && (a.phase == Idle ==> !a.open && a.resumable)
    && (a.phase == Closed ==> !a.open && !a.resumable)
    && (a.phase == Stopping ==> a.pendingStop != 0)
    && (a.pendingStop != 0 ==> a.phase == Stopping || a.phase == Closed)
    && (a.open ==> a.generation >= 1)
  }

  ghost predicate AggregateOk(i: Id, a: Aggregate, n: nat) {
    && 1 <= a.born <= n && a.pendingStop <= n
    && PhaseOk(a)
    && QueueOk(i, a, n)
  }

  ghost predicate OneStop(d: Durable) {
    forall i, j | i in d && j in d && d[i].pendingStop != 0 && d[j].pendingStop != 0 :: d[i].pendingStop == d[j].pendingStop
  }

  ghost predicate WellFormed(d: Durable, n: nat) {
    && WellFounded(ShapeOf(d))
    && (forall i | i in d :: AggregateOk(i, d[i], n))
    && OneStop(d)
  }

  lemma KeepsAll(q: seq<Pending>, covered: set<Id>, owner: Id)
    requires forall k | 0 <= k < |q| :: q[k].owner == owner
    ensures KeepUncovered(q, covered) == if owner in covered then [] else q
  {
    if q != [] {
      KeepsAll(q[..|q| - 1], covered, owner);
    }
  }

  lemma StopCompletedKeepsWellFormed(d: Durable, n: nat, e: Event, d': Durable)
    requires WellFormed(d, n) && e.StopCompleted? && Apply(d, n + 1, e) == Some(d')
    ensures WellFormed(d', n + 1)
  {
    hide Apply, AggregateOk, KeepUncovered;
    CompletionUnstops(d, n + 1, e, d');
    forall i | i in d' ensures AggregateOk(i, d'[i], n + 1) {
      UnstoppedIsOk(i, d[i], n, StopMembers(d, e.requestSeq), i in StopMembers(d, e.requestSeq));
    }
  }

  /** What a completion does to each record. */
  function AfterStop(a: Aggregate, covered: set<Id>, member: bool): Aggregate {
    var kept := a.(queue := KeepUncovered(a.queue, covered));
    if member then Unstop(kept) else kept
  }

  lemma CompletionUnstops(d: Durable, n: nat, e: Event, d': Durable)
    requires e.StopCompleted? && Apply(d, n, e) == Some(d') && OneStop(d)
    ensures d'.Keys == d.Keys && ShapeOf(d') == ShapeOf(d) && OneStop(d')
    ensures forall i | i in d :: d'[i] == AfterStop(d[i], StopMembers(d, e.requestSeq), i in StopMembers(d, e.requestSeq))
    ensures forall i | i in StopMembers(d, e.requestSeq) :: !d[i].open
  {
    hide KeepUncovered;
  }

  lemma UnstoppedIsOk(i: Id, a: Aggregate, n: nat, covered: set<Id>, member: bool)
    requires AggregateOk(i, a, n) && (member ==> !a.open)
    ensures AggregateOk(i, AfterStop(a, covered, member), n + 1)
  {
    hide QueueOk, KeepUncovered;
    var b := AfterStop(a, covered, member);
    KeptQueue(i, a, n, covered);
    QueueOkAlike(i, a, b, n);
  }

  lemma KeptQueue(i: Id, a: Aggregate, n: nat, covered: set<Id>)
    requires QueueOk(i, a, n)
    ensures KeepUncovered(a.queue, covered) == a.queue || KeepUncovered(a.queue, covered) == []
  {
    KeepsAll(a.queue, covered, a.parent);
  }

  lemma QueueOkAlike(i: Id, a: Aggregate, b: Aggregate, n: nat)
    requires QueueOk(i, a, n) && b.parent == a.parent && b.generation == a.generation && b.open == a.open && (b.queue == a.queue || b.queue == [])
    ensures QueueOk(i, b, n + 1)
  {
    forall k | 0 <= k < |b.queue| ensures b.queue[k].owner == b.parent && DidOk(i, b, n + 1, b.queue[k].did) {
      assert DidOk(i, a, n, a.queue[k].did);
    }
  }

  /** What a stop request does to each record. */
  lemma StopRequestedMarks(d: Durable, n: nat, e: Event, d': Durable)
    requires e.StopRequested? && Apply(d, n, e) == Some(d')
    ensures e.id in d && d'.Keys == d.Keys && ShapeOf(d') == ShapeOf(d)
    ensures forall i | i in d :: d[i].pendingStop == 0
    ensures forall i | i in d :: d'[i] == d[i] || d'[i] == Stop(d[i], n)
    ensures n != 0 ==> StopMembers(d', n) == Subtree(ShapeOf(d), e.id)
  {
  }

  lemma StopRequestedKeepsWellFormed(d: Durable, n: nat, e: Event, d': Durable)
    requires WellFormed(d, n) && e.StopRequested? && Apply(d, n + 1, e) == Some(d')
    ensures WellFormed(d', n + 1)
  {
    StopRequestedMarks(d, n + 1, e, d');
    forall i | i in d' ensures AggregateOk(i, d'[i], n + 1) {
      MarkedIsOk(i, d[i], n);
    }
  }

  lemma MarkedIsOk(i: Id, a: Aggregate, n: nat)
    requires AggregateOk(i, a, n)
    ensures AggregateOk(i, a, n + 1) && AggregateOk(i, Stop(a, n + 1), n + 1)
  {
    assert forall k | 0 <= k < |a.queue| :: DidOk(i, a, n, a.queue[k].did) && PendingOk(a.queue[k]);
  }

  lemma CreatedKeepsWellFormed(d: Durable, n: nat, e: Event, d': Durable)
    requires WellFormed(d, n) && e.Created? && Apply(d, n + 1, e) == Some(d')
    ensures WellFormed(d', n + 1)
  {
    assert e.parent != NO_ID ==> AggregateOk(e.parent, d[e.parent], n);
    CreatedShape(d, n + 1, e, d');
    GrowthAddsLeaf(ShapeOf(d), e.id, Node(e.parent, n + 1), e.id);
    forall i | i in d' ensures AggregateOk(i, d'[i], n + 1) {
      if i != e.id { OlderIsOk(i, d[i], n); }
    }
    hide QueueOk, Under, ShapeOf;
  }

  lemma CreatedShape(d: Durable, n: nat, e: Event, d': Durable)
    requires e.Created? && Apply(d, n, e) == Some(d')
    ensures ShapeOf(d') == ShapeOf(d)[e.id := Node(e.parent, n)]
  {
  }

  lemma OlderIsOk(i: Id, a: Aggregate, n: nat)
    requires AggregateOk(i, a, n)
    ensures AggregateOk(i, a, n + 1)
  {
    forall k | 0 <= k < |a.queue| ensures DidOk(i, a, n + 1, a.queue[k].did) { assert DidOk(i, a, n, a.queue[k].did); }
  }

  /** Events that rewrite one record and leave parentage and stops alone. */
  predicate Local(e: Event) {
    !e.Created? && !e.StopRequested? && !e.StopCompleted?
  }

  lemma LocalTouchesOne(d: Durable, n: nat, e: Event, d': Durable)
    requires Local(e) && Apply(d, n, e) == Some(d')
    ensures e.id in d && d'.Keys == d.Keys && d' == d[e.id := d'[e.id]]
    ensures d'[e.id].parent == d[e.id].parent && d'[e.id].born == d[e.id].born
    ensures d'[e.id].pendingStop == d[e.id].pendingStop
    ensures ShapeOf(d') == ShapeOf(d)
  {
  }

  lemma LocalKeepsAggregate(d: Durable, n: nat, e: Event, d': Durable)
    requires Local(e) && e.id in d && AggregateOk(e.id, d[e.id], n) && Apply(d, n + 1, e) == Some(d')
    ensures e.id in d' && AggregateOk(e.id, d'[e.id], n + 1)
  {
    var a, a' := d[e.id], d'[e.id];
    if e.RunFinished? || e.UpdatePosted? {
      forall k | 0 <= k < |a.queue| ensures DidOk(e.id, a', n + 1, a.queue[k].did) {
        assert DidOk(e.id, a, n, a.queue[k].did);
      }
    }
  }

  lemma LocalKeepsWellFormed(d: Durable, n: nat, e: Event, d': Durable)
    requires WellFormed(d, n) && Local(e) && Apply(d, n + 1, e) == Some(d')
    ensures WellFormed(d', n + 1)
  {
    hide Apply, AggregateOk, ShapeOf;
    LocalTouchesOne(d, n + 1, e, d');
    LocalKeepsAggregate(d, n, e, d');
    forall i | i in d' ensures AggregateOk(i, d'[i], n + 1) {
      if i != e.id { OlderIsOk(i, d[i], n); }
    }
  }

  lemma ApplyKeepsWellFormed(d: Durable, n: nat, e: Event, d': Durable)
    requires WellFormed(d, n) && Apply(d, n + 1, e) == Some(d')
    ensures WellFormed(d', n + 1)
  {
    match e
    case Created(_, _, _) => CreatedKeepsWellFormed(d, n, e, d');
    case StopRequested(_) => StopRequestedKeepsWellFormed(d, n, e, d');
    case StopCompleted(_, _) => StopCompletedKeepsWellFormed(d, n, e, d');
    case _ => LocalKeepsWellFormed(d, n, e, d');
  }

  lemma {:induction false} BatchKeepsWellFormed(d: Durable, n: nat, batch: seq<Event>, d': Durable)
    requires WellFormed(d, n) && ApplyBatch(d, n, batch) == Some(d')
    ensures WellFormed(d', n + |batch|)
  {
    hide WellFormed, Apply;
    if batch != [] {
      var init := batch[..|batch| - 1];
      var mid := ApplyBatch(d, n, init).value;
      BatchKeepsWellFormed(d, n, init, mid);
      ApplyKeepsWellFormed(mid, n + |init|, batch[|batch| - 1], d');
    }
  }

  /** Every accepted journal folds to well-formed records. */
  lemma {:induction false} FoldIsWellFormed(events: seq<Event>)
    requires Fold(events).Some?
    ensures WellFormed(Fold(events).value, |events|)
  {
    if events != [] {
      var init := events[..|events| - 1];
      FoldIsWellFormed(init);
      ApplyKeepsWellFormed(Fold(init).value, |init|, events[|events| - 1], Fold(events).value);
    }
  }

  lemma {:induction false} PrefixFolds(events: seq<Event>, k: nat)
    requires Fold(events).Some? && k <= |events|
    ensures Fold(events[..k]).Some?
  {
    if k == |events| {
      assert events[..k] == events;
    } else {
      PrefixFolds(events[..|events| - 1], k);
      assert events[..|events| - 1][..k] == events[..k];
    }
  }

  // ---- Resumability closes monotonically ----

  lemma {:induction false} ResumabilityIsMonotone(events: seq<Event>, k: nat, id: Id)
    requires Fold(events).Some? && k <= |events| && Fold(events[..k]).Some?
    requires id in Fold(events[..k]).value && !Fold(events[..k]).value[id].resumable
    ensures id in Fold(events).value && !Fold(events).value[id].resumable
  {
    if k == |events| {
      assert events[..k] == events;
    } else {
      var init := events[..|events| - 1];
      assert init[..k] == events[..k];
      ResumabilityIsMonotone(init, k, id);
    }
  }

  // ---- One finish per generation ----

  /** Generations only count up, and nobody changes parents. */
  lemma {:induction false} GenerationsGrow(events: seq<Event>, k: nat, id: Id)
    requires Fold(events).Some? && k <= |events| && Fold(events[..k]).Some? && id in Fold(events[..k]).value
    ensures id in Fold(events).value && Fold(events[..k]).value[id].generation <= Fold(events).value[id].generation
    ensures Fold(events).value[id].parent == Fold(events[..k]).value[id].parent
  {
    if k == |events| {
      assert events[..k] == events;
    } else {
      hide Apply, Fold;
      var init := events[..|events| - 1];
      assert init[..k] == events[..k];
      FoldUnrolls(events);
      GenerationsGrow(init, k, id);
      GenerationGrows(Fold(init).value, |events|, events[|events| - 1], Fold(events).value, id);
    }
  }

  lemma GenerationGrows(d: Durable, n: nat, e: Event, d': Durable, id: Id)
    requires Apply(d, n, e) == Some(d') && id in d
    ensures id in d' && d[id].generation <= d'[id].generation && d'[id].parent == d[id].parent
  {
    hide Under, KeepUncovered, ShapeOf;
  }

  predicate RunOver(d: Durable, id: Id, generation: nat) {
    id in d && (d[id].generation > generation || (d[id].generation == generation && !d[id].open))
  }

  lemma {:induction false} FinishedStaysOver(events: seq<Event>, k: nat)
    requires Fold(events).Some? && k < |events| && events[k].RunFinished?
    ensures RunOver(Fold(events).value, events[k].id, events[k].generation)
  {
    var init, e := events[..|events| - 1], events[|events| - 1];
    if k < |init| {
      hide Apply;
      assert init[k] == events[k];
      FinishedStaysOver(init, k);
      OverStaysOver(Fold(init).value, |events|, e, Fold(events).value, events[k].id, events[k].generation);
    }
  }

  lemma OverStaysOver(d: Durable, n: nat, e: Event, d': Durable, id: Id, generation: nat)
    requires RunOver(d, id, generation) && Apply(d, n, e) == Some(d')
    ensures RunOver(d', id, generation)
  {
    hide Under, KeepUncovered, ShapeOf;
  }

  /** In an accepted journal no generation is finished twice. */
  lemma {:induction false} OneFinishPerGeneration(events: seq<Event>, j: nat, k: nat)
    requires Fold(events).Some? && j < k < |events|
    requires events[j].RunFinished? && events[k].RunFinished? && events[j].id == events[k].id
    ensures events[j].generation != events[k].generation
  {
    PrefixFolds(events, k + 1);
    PrefixFolds(events, k);
    var upto := events[..k + 1];
    assert upto[..k] == events[..k] && upto[k] == events[k] && events[..k][j] == events[j];
    assert upto[..|upto| - 1] == events[..k];
    FinishedStaysOver(events[..k], j);
  }

  // ---- A pending stop names its request, and its members are the subtree it was admitted over ----

  ghost predicate StopNamed(events: seq<Event>, d: Durable, s: nat) {
    && 1 <= s <= |events| && events[s - 1].StopRequested?
    && Fold(events[..s - 1]).Some?
    && events[s - 1].id in StopMembers(d, s)
    && events[s - 1].id in Fold(events[..s - 1]).value
    && StopMembers(d, s) == Subtree(ShapeOf(Fold(events[..s - 1]).value), events[s - 1].id)
  }

  lemma MarkIsTheRequest(d: Durable, n: nat, d': Durable, s: nat)
    requires d'.Keys == d.Keys && s != 0 && StopMembers(d', s) != {}
    requires forall i | i in d :: d[i].pendingStop == 0 && (d'[i] == d[i] || d'[i] == Stop(d[i], n))
    ensures s == n
  {
    var i :| i in StopMembers(d', s);
    assert d'[i] == d[i] || d'[i] == Stop(d[i], n);
  }

  /** No event but a request marks a delegate, and no event but a completion clears a mark. */
  lemma MarksStay(d: Durable, n: nat, e: Event, d': Durable)
    requires Apply(d, n, e) == Some(d') && !e.StopRequested? && !e.StopCompleted?
    ensures d.Keys <= d'.Keys
    ensures forall i | i in d' :: d'[i].pendingStop == if i in d then d[i].pendingStop else 0
  {
    if Local(e) { LocalTouchesOne(d, n, e, d'); }
  }

  lemma PendingStopSteps(d: Durable, n: nat, e: Event, d': Durable, s: nat)
    requires WellFormed(d, n) && Apply(d, n + 1, e) == Some(d') && !e.StopRequested? && s != 0 && StopMembers(d', s) != {}
    ensures s <= n && StopMembers(d', s) == StopMembers(d, s)
  {
    if e.StopCompleted? {
      CompletionClearsMarks(d, n, e, d');
    } else {
      MarksStay(d, n + 1, e, d');
      var i :| i in StopMembers(d', s);
      assert AggregateOk(i, d[i], n);
    }
  }

  lemma CompletionClearsMarks(d: Durable, n: nat, e: Event, d': Durable)
    requires WellFormed(d, n) && e.StopCompleted? && Apply(d, n + 1, e) == Some(d')
    ensures forall i | i in d' :: d'[i].pendingStop == 0
  {
  }

  /** A restart finds exactly one request behind the pending marks, and marks exactly its subtree. */
  lemma {:induction false} PendingStopIsItsRequest(events: seq<Event>, s: nat)
    requires Fold(events).Some? && s != 0 && StopMembers(Fold(events).value, s) != {}
    ensures StopNamed(events, Fold(events).value, s)
  {
    hide WellFormed, Apply, Under;
    if events != [] {
      var init, e := events[..|events| - 1], events[|events| - 1];
      FoldIsWellFormed(init);
      if e.StopRequested? {
        StopRequestedMarks(Fold(init).value, |events|, e, Fold(events).value);
        MarkIsTheRequest(Fold(init).value, |events|, Fold(events).value, s);
        assert events[..s - 1] == init;
      } else {
        PendingStopSteps(Fold(init).value, |init|, e, Fold(events).value, s);
        PendingStopIsItsRequest(init, s);
        assert init[..s - 1] == events[..s - 1];
      }
    }
  }

  // ---- Delivery order ----

  datatype Fate = AckedFate | DroppedFate
  datatype Settled = Settled(did: DeliveryId, fate: Fate)

  function Dids(q: seq<Pending>): (r: seq<DeliveryId>)
    ensures |r| == |q|
    ensures forall k | 0 <= k < |q| :: r[k] == q[k].did
  {
    seq(|q|, k requires 0 <= k < |q| => q[k].did)
  }

  function QueueOf(d: Durable, id: Id): seq<Pending> {
    if id in d then d[id].queue else []
  }

  /** The delivery an event appended to `id`'s queue. */
  function PostedBy(before: Durable, after: Durable, e: Event, id: Id): seq<DeliveryId> {
    if (e.RunFinished? || e.UpdatePosted?) && e.id == id && |QueueOf(after, id)| > |QueueOf(before, id)|
    then [QueueOf(after, id)[|QueueOf(after, id)| - 1].did]
    else []
  }

  function DropAll(q: seq<Pending>): (r: seq<Settled>)
    ensures |r| == |q|
    ensures forall k | 0 <= k < |q| :: r[k] == Settled(q[k].did, DroppedFate)
  {
    seq(|q|, k requires 0 <= k < |q| => Settled(q[k].did, DroppedFate))
  }

  /** The deliveries an event settled: an acknowledgement pops the head, a completed stop over the owner drops the queue. */
  function SettledBy(before: Durable, e: Event, id: Id): seq<Settled> {
    if e.DeliveryAcknowledged? && e.id == id then [Settled(e.acked, AckedFate)]
    else if e.StopCompleted? && id in before && before[id].parent in StopMembers(before, e.requestSeq) then DropAll(before[id].queue)
    else []
  }

  function PostedIn(events: seq<Event>, id: Id): seq<DeliveryId>
    requires Fold(events).Some?
  {
    if events == [] then []
    else
      var init := events[..|events| - 1];
      PostedIn(init, id) + PostedBy(Fold(init).value, Fold(events).value, events[|events| - 1], id)
  }

  function SettledIn(events: seq<Event>, id: Id): seq<Settled>
    requires Fold(events).Some?
  {
    if events == [] then []
    else
      var init := events[..|events| - 1];
      SettledIn(init, id) + SettledBy(Fold(init).value, events[|events| - 1], id)
  }

  function SettledDids(s: seq<Settled>): (r: seq<DeliveryId>)
    ensures |r| == |s|
    ensures forall k | 0 <= k < |s| :: r[k] == s[k].did
  {
    seq(|s|, k requires 0 <= k < |s| => s[k].did)
  }

  lemma OthersQueuesStay(d: Durable, n: nat, e: Event, d': Durable, id: Id)
    requires Apply(d, n, e) == Some(d') && !e.StopCompleted?
    requires e.id != id || !(e.RunFinished? || e.UpdatePosted? || e.DeliveryAcknowledged?)
    ensures QueueOf(d', id) == QueueOf(d, id)
  {
    if e.StopRequested? {
      StopRequestedMarks(d, n, e, d');
    }
  }

  lemma OwnQueueSteps(d: Durable, n: nat, e: Event, d': Durable)
    requires Apply(d, n, e) == Some(d') && (e.RunFinished? || e.UpdatePosted?)
    ensures var q, q' := QueueOf(d, e.id), QueueOf(d', e.id); q' == q || (|q'| == |q| + 1 && q' == q + [q'[|q|]])
  {
  }

  lemma CompletionFiltersQueues(d: Durable, n: nat, e: Event, d': Durable, id: Id)
    requires e.StopCompleted? && Apply(d, n, e) == Some(d')
    ensures QueueOf(d', id) == KeepUncovered(QueueOf(d, id), StopMembers(d, e.requestSeq))
  {
  }

  lemma StopQueueSteps(d: Durable, n: nat, e: Event, q': seq<Pending>, id: Id)
    requires e.StopCompleted? && q' == KeepUncovered(QueueOf(d, id), StopMembers(d, e.requestSeq))
    requires id in d ==> QueueOk(id, d[id], n)
    ensures Dids(QueueOf(d, id)) == SettledDids(SettledBy(d, e, id)) + Dids(q')
  {
    if id in d {
      KeepsAll(d[id].queue, StopMembers(d, e.requestSeq), d[id].parent);
    }
  }

  lemma AckQueueSteps(d: Durable, n: nat, e: Event, d': Durable)
    requires e.DeliveryAcknowledged? && Apply(d, n, e) == Some(d')
    ensures Dids(QueueOf(d, e.id)) == SettledDids(SettledBy(d, e, e.id)) + Dids(QueueOf(d', e.id))
  {
    var q := QueueOf(d, e.id);
    assert Dids(q) == [q[0].did] + Dids(q[1..]);
  }

  lemma QueueStep(d: Durable, n: nat, e: Event, d': Durable, id: Id)
    requires WellFormed(d, n) && Apply(d, n + 1, e) == Some(d')
    ensures Dids(QueueOf(d, id)) + PostedBy(d, d', e, id) == SettledDids(SettledBy(d, e, id)) + Dids(QueueOf(d', id))
  {
    hide Apply, WellFormed, Dids, SettledDids;
    if e.StopCompleted? {
      CompletionFiltersQueues(d, n + 1, e, d', id);
      QueueIsOk(d, n, id);
      StopQueueSteps(d, n, e, QueueOf(d', id), id);
      NothingMore(Dids(QueueOf(d, id)));
    } else if e.id == id && e.DeliveryAcknowledged? {
      AckQueueSteps(d, n + 1, e, d');
      NothingMore(Dids(QueueOf(d, id)));
    } else if e.id == id && (e.RunFinished? || e.UpdatePosted?) {
      OwnQueueSteps(d, n + 1, e, d');
      PostedStep(QueueOf(d, id), QueueOf(d', id), PostedBy(d, d', e, id), SettledBy(d, e, id));
    } else {
      OthersQueuesStay(d, n + 1, e, d', id);
      PostedStep(QueueOf(d, id), QueueOf(d', id), PostedBy(d, d', e, id), SettledBy(d, e, id));
    }
  }

  lemma QueueIsOk(d: Durable, n: nat, id: Id)
    requires WellFormed(d, n)
    ensures id in d ==> QueueOk(id, d[id], n)
  {
    assert id in d ==> AggregateOk(id, d[id], n);
  }

  lemma NothingMore(s: seq<DeliveryId>)
    ensures s + [] == s
  {
  }

  lemma PostedStep(q: seq<Pending>, q': seq<Pending>, posted: seq<DeliveryId>, settled: seq<Settled>)
    requires settled == []
    requires if q' == q then posted == [] else |q'| == |q| + 1 && q' == q + [q'[|q|]] && posted == [q'[|q|].did]
    ensures Dids(q) + posted == SettledDids(settled) + Dids(q')
  {
  }

  lemma SettleAlgebra(posted: seq<DeliveryId>, a: seq<Settled>, q: seq<Pending>, x: seq<DeliveryId>, b: seq<Settled>, q': seq<Pending>)
    requires posted == SettledDids(a) + Dids(q) && Dids(q) + x == SettledDids(b) + Dids(q')
    ensures posted + x == SettledDids(a + b) + Dids(q')
  {
    assert posted + x == SettledDids(a) + (Dids(q) + x);
    assert SettledDids(a + b) == SettledDids(a) + SettledDids(b);
  }

  lemma SettledUnrolls(events: seq<Event>, id: Id)
    requires Fold(events).Some? && events != []
    ensures var init := events[..|events| - 1];
            Fold(init).Some? && SettledIn(events, id) == SettledIn(init, id) + SettledBy(Fold(init).value, events[|events| - 1], id)
  {
    hide Apply;
  }

  /** Settled deliveries, in order, followed by the pending queue, are exactly the posted ones in posting order. */
  lemma {:induction false} SettledThenQueuedIsPosted(events: seq<Event>, id: Id)
    requires Fold(events).Some?
    ensures PostedIn(events, id) == SettledDids(SettledIn(events, id)) + Dids(QueueOf(Fold(events).value, id))
  {
    hide Fold, Apply, WellFormed, PostedIn, SettledIn, PostedBy, SettledBy, QueueOf, Dids, SettledDids;
    if events == [] {
      NothingPosted(id);
    } else {
      var init, e := events[..|events| - 1], events[|events| - 1];
      FoldUnrolls(events);
      PostedUnrolls(events, id);
      SettledUnrolls(events, id);
      SettledThenQueuedIsPosted(init, id);
      FoldIsWellFormed(init);
      SettledStep(PostedIn(init, id), SettledIn(init, id), Fold(init).value, |init|, e, Fold(events).value, id);
    }
  }

  lemma NothingPosted(id: Id)
    ensures Fold([]) == Some(map[]) && PostedIn([], id) == [] && Distinct([]) && PostedEarlier([], map[], 0, id)
    ensures SettledDids(SettledIn([], id)) + Dids(QueueOf(Fold([]).value, id)) == []
  {
  }

  lemma FoldUnrolls(events: seq<Event>)
    requires Fold(events).Some? && events != []
    ensures var init := events[..|events| - 1];
            Fold(init).Some? && Apply(Fold(init).value, |init| + 1, events[|init|]) == Fold(events)
  {
    hide Apply;
  }

  lemma SettledStep(posted: seq<DeliveryId>, settled: seq<Settled>, d: Durable, n: nat, e: Event, d': Durable, id: Id)
    requires WellFormed(d, n) && Apply(d, n + 1, e) == Some(d') && posted == SettledDids(settled) + Dids(QueueOf(d, id))
    ensures posted + PostedBy(d, d', e, id) == SettledDids(settled + SettledBy(d, e, id)) + Dids(QueueOf(d', id))
  {
    hide Apply, WellFormed, PostedBy, SettledBy, QueueOf, Dids, SettledDids;
    QueueStep(d, n, e, d', id);
    SettleAlgebra(posted, settled, QueueOf(d, id), PostedBy(d, d', e, id), SettledBy(d, e, id), QueueOf(d', id));
  }

  ghost predicate Distinct(s: seq<DeliveryId>) {
    forall j, k | 0 <= j < k < |s| :: s[j] != s[k]
  }

  /** Everything posted so far names an earlier generation's report or an earlier event's update. */
  ghost predicate PostedEarlier(s: seq<DeliveryId>, d: Durable, n: nat, id: Id) {
    s == [] || (id in d && forall k | 0 <= k < |s| :: DidOk(id, d[id], n, s[k]))
  }

  lemma DidOkSteps(d: Durable, n: nat, e: Event, d': Durable, id: Id, did: DeliveryId)
    requires WellFormed(d, n) && Apply(d, n + 1, e) == Some(d') && id in d && DidOk(id, d[id], n, did)
    ensures id in d' && DidOk(id, d'[id], n + 1, did) && did != Update(id, n + 1)
    ensures PostedBy(d, d', e, id) != [did]
  {
    hide WellFormed, ShapeOf, Under, KeepUncovered;
    if Local(e) {
      LocalDidSteps(d, n, e, d', id, did);
    }
  }

  lemma LocalDidSteps(d: Durable, n: nat, e: Event, d': Durable, id: Id, did: DeliveryId)
    requires Local(e) && Apply(d, n + 1, e) == Some(d') && id in d && DidOk(id, d[id], n, did)
    ensures id in d' && DidOk(id, d'[id], n + 1, did) && PostedBy(d, d', e, id) != [did]
  {
    LocalTouchesOne(d, n + 1, e, d');
    hide ShapeOf;
    if id != e.id {
      assert d'[id] == d[id];
    }
  }

  lemma PostedByIsFresh(d: Durable, n: nat, e: Event, d': Durable, id: Id)
    requires WellFormed(d, n) && Apply(d, n + 1, e) == Some(d') && PostedBy(d, d', e, id) != []
    ensures id in d' && DidOk(id, d'[id], n + 1, PostedBy(d, d', e, id)[0])
  {
    ApplyKeepsWellFormed(d, n, e, d');
    assert AggregateOk(id, d'[id], n + 1);
  }

  lemma {:induction false} PostedOnce(events: seq<Event>, id: Id)
    requires Fold(events).Some?
    ensures Distinct(PostedIn(events, id))
    ensures PostedEarlier(PostedIn(events, id), Fold(events).value, |events|, id)
  {
    hide Fold, Apply, WellFormed, PostedEarlier, PostedIn, PostedBy, Distinct;
    if events == [] {
      NothingPosted(id);
    } else {
      var init, e := events[..|events| - 1], events[|events| - 1];
      FoldUnrolls(events);
      PostedOnce(init, id);
      FoldIsWellFormed(init);
      PostedUnrolls(events, id);
      PostedOnceStep(PostedIn(init, id), Fold(init).value, |init|, e, Fold(events).value, id);
    }
  }

  lemma PostedOnceStep(old_: seq<DeliveryId>, d: Durable, n: nat, e: Event, d': Durable, id: Id)
    requires WellFormed(d, n) && Apply(d, n + 1, e) == Some(d') && Distinct(old_) && PostedEarlier(old_, d, n, id)
    ensures var s := old_ + PostedBy(d, d', e, id); Distinct(s) && PostedEarlier(s, d', n + 1, id)
  {
    var new_ := PostedBy(d, d', e, id);
    assert |new_| <= 1;
    hide Apply, WellFormed, DidOk, PostedBy, Distinct;
    forall k | 0 <= k < |old_|
      ensures id in d' && DidOk(id, d'[id], n + 1, old_[k]) && new_ != [old_[k]]
    {
      DidOkSteps(d, n, e, d', id, old_[k]);
    }
    if old_ != [] { DidOkSteps(d, n, e, d', id, old_[0]); }
    if new_ != [] { PostedByIsFresh(d, n, e, d', id); }
    PostedOnceMore(old_, new_, d', n + 1, id);
  }

  lemma PostedUnrolls(events: seq<Event>, id: Id)
    requires Fold(events).Some? && events != []
    ensures var init := events[..|events| - 1];
            && Fold(init).Some? && |PostedBy(Fold(init).value, Fold(events).value, events[|events| - 1], id)| <= 1
            && PostedIn(events, id) == PostedIn(init, id) + PostedBy(Fold(init).value, Fold(events).value, events[|events| - 1], id)
  {
    hide Apply;
  }

  lemma PostedOnceMore(old_: seq<DeliveryId>, new_: seq<DeliveryId>, d: Durable, n: nat, id: Id)
    requires Distinct(old_) && |new_| <= 1
    requires forall k | 0 <= k < |old_| :: id in d && DidOk(id, d[id], n, old_[k]) && new_ != [old_[k]]
    requires old_ != [] ==> id in d
    requires new_ != [] ==> id in d && DidOk(id, d[id], n, new_[0])
    ensures Distinct(old_ + new_) && PostedEarlier(old_ + new_, d, n, id)
  {
    hide DidOk;
    var s := old_ + new_;
    assert s != [] ==> s[0] == (if old_ != [] then old_[0] else new_[0]);
    forall k | 0 <= k < |s| ensures id in d && DidOk(id, d[id], n, s[k]) {
      if k < |old_| { assert s[k] == old_[k]; } else { assert s[k] == new_[0]; }
    }
  }

  /** The acknowledged deliveries among the settled, in order. */
  function Acknowledged(s: seq<Settled>): seq<DeliveryId> {
    if s == [] then []
    else
      var init, last := s[..|s| - 1], s[|s| - 1];
      Acknowledged(init) + (if last.fate == AckedFate then [last.did] else [])
  }

  ghost predicate AllAcked(s: seq<Settled>) {
    forall k | 0 <= k < |s| :: s[k].fate == AckedFate
  }

  /** No dropped delivery lies ahead of an acknowledged one. */
  ghost predicate NoAckAfterDrop(s: seq<Settled>) {
    forall j, k | 0 <= j < k < |s| && s[j].fate == DroppedFate :: s[k].fate == DroppedFate
  }

  lemma {:induction false} AcknowledgedOfConcat(a: seq<Settled>, b: seq<Settled>)
    ensures Acknowledged(a + b) == Acknowledged(a) + Acknowledged(b)
  {
    if b == [] {
      assert a + b == a;
    } else {
      AcknowledgedOfConcat(a, b[..|b| - 1]);
      assert (a + b)[..|a + b| - 1] == a + b[..|b| - 1];
    }
  }

  lemma {:induction false} AcknowledgedOfAllAcked(s: seq<Settled>)
    requires AllAcked(s)
    ensures Acknowledged(s) == SettledDids(s)
  {
    if s != [] {
      AcknowledgedOfAllAcked(s[..|s| - 1]);
      assert s == s[..|s| - 1] + [s[|s| - 1]];
    }
  }

  lemma {:induction false} AcknowledgedOfDropped(s: seq<Settled>)
    requires AllDropped(s)
    ensures Acknowledged(s) == []
  {
    if s != [] { AcknowledgedOfDropped(s[..|s| - 1]); }
  }

  lemma {:induction false} AcknowledgedIsThere(s: seq<Settled>, k: nat)
    requires k < |s| && s[k].fate == AckedFate
    ensures s[k].did in Acknowledged(s)
  {
    var init := s[..|s| - 1];
    if k < |init| {
      AcknowledgedIsThere(init, k);
      assert init[k] == s[k];
    }
  }

  ghost predicate AllDropped(s: seq<Settled>) {
    forall k | 0 <= k < |s| :: s[k].fate == DroppedFate
  }

  lemma DropLastKeepsPrefix(a: seq<Settled>, b: seq<Settled>)
    requires AllAcked(a) && AllDropped(b)
    ensures Acknowledged(a + b) <= SettledDids(a + b)
  {
    AcknowledgedOfConcat(a, b);
    AcknowledgedOfAllAcked(a);
    AcknowledgedOfDropped(b);
  }

  lemma AckAfterDropBreaksPrefix(a: seq<Settled>, b: seq<Settled>, k: nat)
    requires AllAcked(a) && 0 < k < |b| && b[0].fate == DroppedFate && b[k].fate == AckedFate
    requires Distinct(SettledDids(b))
    ensures !(Acknowledged(a + b) <= SettledDids(a + b))
  {
    AcknowledgedOfConcat(a, b);
    AcknowledgedOfAllAcked(a);
    DropThenAck(b, k);
    assert (a + b)[|a|] == b[0];
    NotPrefix(SettledDids(a), Acknowledged(b), SettledDids(a + b));
  }

  lemma NotPrefix(x: seq<DeliveryId>, y: seq<DeliveryId>, z: seq<DeliveryId>)
    requires y != [] && |x| < |z| && y[0] != z[|x|]
    ensures !(x + y <= z)
  {
    assert (x + y)[|x|] == y[0];
  }

  lemma DropThenAck(b: seq<Settled>, k: nat)
    requires 0 < k < |b| && b[0].fate == DroppedFate && b[k].fate == AckedFate && Distinct(SettledDids(b))
    ensures Acknowledged(b) != [] && Acknowledged(b)[0] != b[0].did
  {
    AcknowledgedIsThere(b, k);
    FirstAckedIsAcked(b);
  }

  /** Acknowledged deliveries form a prefix of the settled ones exactly when no drop precedes an acknowledgement. */
  lemma AcknowledgedPrefix(s: seq<Settled>)
    requires Distinct(SettledDids(s))
    ensures Acknowledged(s) <= SettledDids(s) <==> NoAckAfterDrop(s)
  {
    if AllAcked(s) {
      AcknowledgedOfAllAcked(s);
    } else {
      var cut := FirstDrop(s);
      assert s == s[..cut] + s[cut..];
      assert SettledDids(s[cut..]) == SettledDids(s)[cut..];
      PrefixOfSplit(s[..cut], s[cut..]);
      DropsOfSplit(s[..cut], s[cut..]);
    }
  }

  lemma PrefixOfSplit(a: seq<Settled>, b: seq<Settled>)
    requires AllAcked(a) && b != [] && b[0].fate == DroppedFate && Distinct(SettledDids(b))
    ensures Acknowledged(a + b) <= SettledDids(a + b) <==> AllDropped(b)
  {
    if AllDropped(b) {
      DropLastKeepsPrefix(a, b);
    } else {
      var k :| 0 <= k < |b| && b[k].fate == AckedFate;
      AckAfterDropBreaksPrefix(a, b, k);
    }
  }

  lemma DropsOfSplit(a: seq<Settled>, b: seq<Settled>)
    requires AllAcked(a) && b != [] && b[0].fate == DroppedFate
    ensures NoAckAfterDrop(a + b) <==> AllDropped(b)
  {
    assert (a + b)[|a|] == b[0];
    assert forall k | 0 <= k < |b| :: b[k] == (a + b)[|a| + k];
  }

  /** The first acknowledged delivery of a run that starts with a drop is not the dropped one. */
  lemma FirstAckedIsAcked(s: seq<Settled>)
    requires s != [] && s[0].fate == DroppedFate && Distinct(SettledDids(s)) && Acknowledged(s) != []
    ensures Acknowledged(s)[0] != s[0].did
  {
    AcknowledgedComesFrom(s, Acknowledged(s)[0]);
    var k :| 0 <= k < |s| && s[k] == Settled(Acknowledged(s)[0], AckedFate);
    assert SettledDids(s)[k] != SettledDids(s)[0];
  }

  lemma {:induction false} AcknowledgedComesFrom(s: seq<Settled>, did: DeliveryId)
    requires did in Acknowledged(s)
    ensures exists k :: 0 <= k < |s| && s[k] == Settled(did, AckedFate)
  {
    var init := s[..|s| - 1];
    if did in Acknowledged(init) {
      AcknowledgedComesFrom(init, did);
      var k :| 0 <= k < |init| && init[k] == Settled(did, AckedFate);
      assert s[k] == Settled(did, AckedFate);
    } else {
      assert s[|s| - 1] == Settled(did, AckedFate);
    }
  }

  ghost function FirstDrop(s: seq<Settled>): (k: nat)
    requires !AllAcked(s)
    ensures k < |s| && s[k].fate == DroppedFate && AllAcked(s[..k])
  {
    if !AllAcked(s[..|s| - 1]) then FirstDrop(s[..|s| - 1]) else |s| - 1
  }

  // ---- Where the prefix breaks ----

  /** A completed stop leaves a gap in `id`'s deliveries: it covers the owner while something is queued. */
  predicate OpensGap(d: Durable, e: Event, id: Id) {
    e.StopCompleted? && id in d && d[id].queue != [] && d[id].parent in StopMembers(d, e.requestSeq)
  }

  predicate Acks(e: Event, id: Id) {
    e.DeliveryAcknowledged? && e.id == id
  }

  /** Event `j` leaves a gap in `id`'s deliveries. */
  ghost predicate GapAt(events: seq<Event>, j: nat, id: Id) {
    j < |events| && Fold(events[..j]).Some? && OpensGap(Fold(events[..j]).value, events[j], id)
  }

  predicate AckAt(events: seq<Event>, k: nat, id: Id) {
    k < |events| && Acks(events[k], id)
  }

  ghost predicate HasGap(events: seq<Event>, id: Id) {
    exists j: nat :: GapAt(events, j, id)
  }

  /** An acknowledgement of `id` comes after a stop that left a gap. */
  ghost predicate AcksAfterGap(events: seq<Event>, id: Id) {
    exists j: nat, k: nat :: GapAt(events, j, id) && AckAt(events, k, id) && j < k
  }

  ghost predicate HasDrop(s: seq<Settled>) {
    exists k :: 0 <= k < |s| && s[k].fate == DroppedFate
  }

  lemma GapInPrefix(events: seq<Event>, j: nat, id: Id)
    requires events != [] && j < |events| - 1
    ensures GapAt(events, j, id) <==> GapAt(events[..|events| - 1], j, id)
  {
    hide Fold;
    assert events[..|events| - 1][..j] == events[..j];
  }

  lemma GapSteps(events: seq<Event>, id: Id)
    requires events != [] && Fold(events).Some?
    ensures var init, e := events[..|events| - 1], events[|events| - 1];
            Fold(init).Some? && (HasGap(events, id) <==> HasGap(init, id) || OpensGap(Fold(init).value, e, id))
  {
    FoldUnrolls(events);
    var init, last := events[..|events| - 1], |events| - 1;
    forall j: nat | j < last ensures GapAt(events, j, id) <==> GapAt(init, j, id) { GapInPrefix(events, j, id); }
    assert GapAt(events, last, id) <==> OpensGap(Fold(init).value, events[last], id);
    hide Fold, OpensGap, GapAt;
    assert forall j: nat | GapAt(events, j, id) :: j <= last && (j < last ==> GapAt(init, j, id)) by { GapsAreInside(events, id); }
    assert forall j: nat | GapAt(init, j, id) :: j < last by { GapsAreInside(init, id); }
  }

  lemma GapsAreInside(events: seq<Event>, id: Id)
    ensures forall j: nat | GapAt(events, j, id) :: j < |events|
  {
    hide Fold;
  }

  lemma AckInPrefix(events: seq<Event>, init: seq<Event>, k: nat, id: Id)
    requires events != [] && init == events[..|events| - 1]
    ensures AckAt(events, k, id) <==> AckAt(init, k, id) || (k == |init| && Acks(events[k], id))
    ensures AckAt(init, k, id) ==> k < |init|
  {
    hide Acks;
  }

  lemma AckedAfterGap(events: seq<Event>, init: seq<Event>, id: Id)
    requires events != [] && init == events[..|events| - 1] && AcksAfterGap(events, id)
    ensures AcksAfterGap(init, id) || (Acks(events[|init|], id) && HasGap(init, id))
  {
    hide Acks, GapAt, AckAt;
    var j: nat, k: nat :| GapAt(events, j, id) && AckAt(events, k, id) && j < k;
    AckInPrefix(events, init, k, id);
    GapInPrefix(events, j, id);
  }

  lemma AckedGapStays(events: seq<Event>, init: seq<Event>, id: Id)
    requires events != [] && init == events[..|events| - 1] && AcksAfterGap(init, id)
    ensures AcksAfterGap(events, id)
  {
    hide Acks, GapAt, AckAt;
    var j: nat, k: nat :| GapAt(init, j, id) && AckAt(init, k, id) && j < k;
    AckInPrefix(events, init, k, id);
    GapInPrefix(events, j, id);
  }

  lemma AckedLast(events: seq<Event>, init: seq<Event>, id: Id)
    requires events != [] && init == events[..|events| - 1] && Acks(events[|init|], id) && HasGap(init, id)
    ensures AcksAfterGap(events, id)
  {
    GapsAreInside(init, id);
    hide Acks, GapAt, AckAt;
    var j: nat :| GapAt(init, j, id);
    AckInPrefix(events, init, |init|, id);
    GapInPrefix(events, j, id);
  }

  lemma AcksAfterGapSteps(events: seq<Event>, id: Id)
    requires events != []
    ensures var init, e := events[..|events| - 1], events[|events| - 1];
            AcksAfterGap(events, id) <==> AcksAfterGap(init, id) || (Acks(e, id) && HasGap(init, id))
  {
    hide AcksAfterGap, Acks, HasGap;
    var init := events[..|events| - 1];
    if AcksAfterGap(events, id) { AckedAfterGap(events, init, id); }
    if AcksAfterGap(init, id) { AckedGapStays(events, init, id); }
    if Acks(events[|init|], id) && HasGap(init, id) { AckedLast(events, init, id); }
  }

  lemma SettledByOneFate(d: Durable, e: Event, id: Id)
    ensures var b := SettledBy(d, e, id);
            && (HasDrop(b) <==> OpensGap(d, e, id)) && (b != [] && !HasDrop(b) <==> Acks(e, id)) && (HasDrop(b) ==> AllDropped(b))
            && |b| >= 0 && (Acks(e, id) ==> |b| == 1)
  {
    var b := SettledBy(d, e, id);
    if OpensGap(d, e, id) { assert b[0].fate == DroppedFate; }
  }

  lemma SettledMore(a: seq<Settled>, b: seq<Settled>)
    requires HasDrop(b) ==> AllDropped(b)
    ensures HasDrop(a + b) <==> HasDrop(a) || HasDrop(b)
    ensures NoAckAfterDrop(a + b) <==> NoAckAfterDrop(a) && !(HasDrop(a) && b != [] && !HasDrop(b))
  {
    var s := a + b;
    assert forall k | 0 <= k < |a| :: s[k] == a[k];
    assert forall k | 0 <= k < |b| :: s[|a| + k] == b[k];
    if HasDrop(a) {
      var j :| 0 <= j < |a| && a[j].fate == DroppedFate;
      assert s[j].fate == DroppedFate;
      if b != [] && !HasDrop(b) { assert s[|a|].fate == AckedFate; }
    }
    if HasDrop(b) {
      var j :| 0 <= j < |b| && b[j].fate == DroppedFate;
      assert s[|a| + j].fate == DroppedFate;
    }
    if NoAckAfterDrop(a) && !(HasDrop(a) && b != [] && !HasDrop(b)) {
      forall j, k | 0 <= j < k < |s| && s[j].fate == DroppedFate ensures s[k].fate == DroppedFate {
        if j < |a| { assert HasDrop(a); }
        if k >= |a| { assert s[k] == b[k - |a|]; }
        if j >= |a| { assert b[j - |a|].fate == DroppedFate; }
      }
    }
  }

  /** A drop is ahead of an acknowledgement exactly when a stop left a gap before it. */
  lemma {:induction false} DropsAreGaps(events: seq<Event>, id: Id)
    requires Fold(events).Some?
    ensures HasDrop(SettledIn(events, id)) <==> HasGap(events, id)
    ensures NoAckAfterDrop(SettledIn(events, id)) <==> !AcksAfterGap(events, id)
  {
    hide Fold, HasDrop, HasGap, AcksAfterGap, OpensGap, Acks, SettledBy, NoAckAfterDrop, SettledIn;
    if events == [] {
      NoGapsYet(id);
    } else {
      var init, e := events[..|events| - 1], events[|events| - 1];
      GapSteps(events, id);
      AcksAfterGapSteps(events, id);
      SettledUnrolls(events, id);
      DropsAreGaps(init, id);
      SettledByOneFate(Fold(init).value, e, id);
      SettledMore(SettledIn(init, id), SettledBy(Fold(init).value, e, id));
    }
  }

  lemma NoGapsYet(id: Id)
    ensures Fold([]).Some? && !HasDrop(SettledIn([], id)) && !HasGap([], id) && NoAckAfterDrop(SettledIn([], id)) && !AcksAfterGap([], id)
  {
  }

  /** What an event takes out of a queue without an acknowledgement. */
  ghost predicate Loses(d: Durable, d': Durable, e: Event, id: Id, k: nat) {
    k < |QueueOf(d, id)| && QueueOf(d, id)[k].did !in Dids(QueueOf(d', id)) && e != DeliveryAcknowledged(id, QueueOf(d, id)[k].did)
  }

  /** One event loses a queued delivery of `id` exactly when it completes a stop over id's owner; then it loses the whole queue. */
  lemma GapOpensExactly(d: Durable, n: nat, e: Event, d': Durable, id: Id)
    requires WellFormed(d, n) && Apply(d, n + 1, e) == Some(d')
    ensures (exists k: nat :: Loses(d, d', e, id, k)) <==> OpensGap(d, e, id)
    ensures OpensGap(d, e, id) ==> QueueOf(d', id) == []
  {
    hide Apply, WellFormed, OpensGap;
    QueueStep(d, n, e, d', id);
    SettledByOneFate(d, e, id);
    GapLoses(d, d', e, id);
    if !OpensGap(d, e, id) {
      forall k: nat | k < |QueueOf(d, id)| ensures !Loses(d, d', e, id, k) { NoGapKeeps(d, d', e, id, k); }
    }
  }

  lemma NoGapKeeps(d: Durable, d': Durable, e: Event, id: Id, k: nat)
    requires Dids(QueueOf(d, id)) + PostedBy(d, d', e, id) == SettledDids(SettledBy(d, e, id)) + Dids(QueueOf(d', id))
    requires k < |QueueOf(d, id)| && !OpensGap(d, e, id)
    ensures !Loses(d, d', e, id, k)
  {
    var q, b, q' := Dids(QueueOf(d, id)), SettledBy(d, e, id), Dids(QueueOf(d', id));
    SettledByOneFate(d, e, id);
    var all := SettledDids(b) + q';
    assert (q + PostedBy(d, d', e, id))[k] == all[k];
    if k >= |b| { assert all[k] == q'[k - |b|]; } else { assert |b| == 1 && b[0] == Settled(q[0], AckedFate); }
  }

  lemma GapLoses(d: Durable, d': Durable, e: Event, id: Id)
    requires Dids(QueueOf(d, id)) + PostedBy(d, d', e, id) == SettledDids(SettledBy(d, e, id)) + Dids(QueueOf(d', id))
    ensures OpensGap(d, e, id) ==> QueueOf(d', id) == [] && Loses(d, d', e, id, 0)
  {
    if OpensGap(d, e, id) {
      assert PostedBy(d, d', e, id) == [];
      assert |Dids(QueueOf(d, id))| == |SettledBy(d, e, id)| + |QueueOf(d', id)|;
    }
  }

  /** The delivery order: what is settled is a prefix of what was posted, in posting order with none twice; the acknowledged
      deliveries are one exactly when no acknowledgement follows a completed stop that covered the owner of a nonempty queue. */
  lemma DeliveryOrder(events: seq<Event>, id: Id)
    requires Fold(events).Some?
    ensures var posted, settled := PostedIn(events, id), SettledIn(events, id);
            && Distinct(posted)
            && SettledDids(settled) <= posted
            && (Acknowledged(settled) <= posted <==> !AcksAfterGap(events, id))
  {
    hide Fold, AcksAfterGap, HasGap, HasDrop, PostedEarlier, NoAckAfterDrop;
    var posted, settled := PostedIn(events, id), SettledIn(events, id);
    SettledThenQueuedIsPosted(events, id);
    PostedOnce(events, id);
    assert forall k | 0 <= k < |settled| :: SettledDids(settled)[k] == posted[k];
    AcknowledgedPrefix(settled);
    AcknowledgedNoLonger(settled);
    DropsAreGaps(events, id);
    if Acknowledged(settled) <= posted {
      assert Acknowledged(settled) <= SettledDids(settled);
    }
  }

  lemma {:induction false} AcknowledgedNoLonger(s: seq<Settled>)
    ensures |Acknowledged(s)| <= |s|
  {
    if s != [] { AcknowledgedNoLonger(s[..|s| - 1]); }
  }
}
