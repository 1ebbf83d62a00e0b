/** The journal fold: what each accepted event does to the durable delegate records. */
module Journal {
  import opened Types
  import opened Tree

  predicate ValidPacket(p: Packet) {
    p.kind == ReportedPacket || p.kind == TerminalErrorPacket
  }

  /** Exhaustion metadata rides exactly the exhausted outcomes, with the code and resumability its budget fixes. */
  predicate ValidOutcome(o: Outcome) {
    if o.status != Exhausted then o.exhaustion.None?
    else
      && o.exhaustion.Some?
      && var e := o.exhaustion.value;
      && e.limit > 0
      && match e.budget
         case ToolRounds => o.reason == ToolRoundsExhausted && e.resumable
         case Turns => o.reason == TurnsExhausted && !e.resumable
  }

  predicate OpenRun(d: Durable, id: Id, generation: nat) {
    id in d && d[id].generation == generation && d[id].open
  }

  predicate Queued(q: seq<Pending>, did: DeliveryId) {
    exists k | 0 <= k < |q| :: q[k].did == did
  }

  const BARE_STOP := Packet(TerminalErrorPacket, StoppedText, true, NoMetadata)

  /** The delegate whose delivery this is belongs to the same pending stop as its owner. */
  predicate OwnerCovered(d: Durable, a: Aggregate) {
    a.parent != NO_ID && a.parent in d && d[a.parent].pendingStop == a.pendingStop
  }

  function ApplyCreated(d: Durable, seqNo: nat, e: Event): Option<Durable>
    requires e.Created?
  {
    if e.id == NO_ID || e.id in d || (e.parent != NO_ID && e.parent !in d) then None
    else
      Some(d[e.id := Aggregate(e.parent, seqNo, 0, InitialTrigger, if e.resumable then Idle else Closed,
                               false, None, e.resumable, None, [], 0)])
  }

  function ApplyRunStarted(d: Durable, e: Event): Option<Durable>
    requires e.RunStarted?
  {
    if e.id !in d then None
    else
      var a := d[e.id];
      if e.generation != a.generation + 1 || a.phase != Idle || !a.resumable || a.pendingStop != 0 then None
      else Some(d[e.id := a.(generation := e.generation, trigger := e.trigger, phase := Running, open := true, prepared := None)])
  }

  function ApplyTerminalPrepared(d: Durable, e: Event): Option<Durable>
    requires e.TerminalPrepared?
  {
    if !OpenRun(d, e.id, e.generation) || d[e.id].phase != Running || !ValidPacket(e.packet) then None
    else Some(d[e.id := d[e.id].(prepared := Some(e.packet), phase := Settling)])
  }

  function Enqueue(a: Aggregate, did: DeliveryId, generation: nat, packet: Packet): Aggregate {
    a.(queue := a.queue + [Pending(did, generation, a.parent, packet)])
  }

  /** A finish under a stop: the stopped outcome whatever the event says, and a report only to an owner outside the stop. */
  function ApplyStoppedFinish(d: Durable, e: Event): Option<Durable>
    requires e.RunFinished? && e.id in d
  {
    var a := d[e.id];
    var closed := a.(outcome := Some(e.outcome.(status := Stopped, reason := StoppedByParent)), open := false);
    if OwnerCovered(d, a) then Some(d[e.id := closed])
    else
      var packet := if e.finishPacket.Some? && e.finishPacket.value.kind == TerminalErrorPacket
                    then e.finishPacket.value else BARE_STOP;
      if e.did != Some(Report(e.id, e.generation)) || Queued(a.queue, e.did.value) then None
      else Some(d[e.id := Enqueue(closed, e.did.value, e.generation, packet)])
  }

  predicate FinishPacketOk(a: Aggregate, e: Event, packet: Option<Packet>)
    requires e.RunFinished?
  {
    if e.disposition == CompletedNoAction then
      && a.trigger == AttentionTrigger && e.outcome.status == Completed
      && e.did.None? && e.finishPacket.None? && a.prepared.None?
    else
      && packet.Some? && ValidPacket(packet.value)
      && (e.disposition == ReportedRun ==> packet.value.kind == ReportedPacket)
      && (e.disposition == TerminalErrorRun ==> packet.value.kind == TerminalErrorPacket)
      && e.did.Some?
  }

  function ApplyOrdinaryFinish(d: Durable, e: Event): Option<Durable>
    requires e.RunFinished? && e.id in d
  {
    var a := d[e.id];
    var packet := if e.finishPacket.Some? then e.finishPacket else a.prepared;
    if !FinishPacketOk(a, e, packet) then None
    else
      var closed := a.(outcome := Some(e.outcome), open := false, prepared := None,
                       phase := if a.resumable then Idle else Closed);
      if e.disposition == CompletedNoAction then Some(d[e.id := closed])
      else if e.did != Some(Report(e.id, e.generation)) || Queued(a.queue, e.did.value) then None
      else Some(d[e.id := Enqueue(closed, e.did.value, e.generation, packet.value)])
  }

  function ApplyRunFinished(d: Durable, e: Event): Option<Durable>
    requires e.RunFinished?
  {
    if !OpenRun(d, e.id, e.generation) || !ValidOutcome(e.outcome) then None
    else if d[e.id].phase == Stopping then ApplyStoppedFinish(d, e)
    else if d[e.id].phase == Running || d[e.id].phase == Settling then ApplyOrdinaryFinish(d, e)
    else None
  }

  function ApplyResumabilityClosed(d: Durable, e: Event): Option<Durable>
    requires e.ResumabilityClosed?
  {
    if e.id !in d || !d[e.id].resumable then None
    else Some(d[e.id := d[e.id].(resumable := false, phase := if d[e.id].phase == Idle then Closed else d[e.id].phase)])
  }

  function Stop(a: Aggregate, seqNo: nat): Aggregate {
    a.(pendingStop := seqNo, phase := if a.phase == Closed then Closed else Stopping)
  }

  /** A stop request marks the target's whole subtree, and refuses while any stop is pending. */
  function ApplyStopRequested(d: Durable, seqNo: nat, e: Event): Option<Durable>
    requires e.StopRequested?
  {
    if e.id !in d || exists i | i in d :: d[i].pendingStop != 0 then None
    else Some(map i | i in d :: if Under(ShapeOf(d), i, e.id) then Stop(d[i], seqNo) else d[i])
  }

  function Unstop(a: Aggregate): Aggregate {
    a.(pendingStop := 0, prepared := None, phase := if a.resumable then Idle else Closed)
  }

  /** Deliveries of one delegate share its parent as owner, so a covered owner drops the whole queue. */
  function KeepUncovered(q: seq<Pending>, covered: set<Id>): seq<Pending> {
    if q == [] then []
    else KeepUncovered(q[..|q| - 1], covered) + (if q[|q| - 1].owner in covered then [] else [q[|q| - 1]])
  }

  function StopMembers(d: Durable, seqNo: nat): set<Id> {
    set i | i in d && d[i].pendingStop == seqNo
  }

  function ApplyStopCompleted(d: Durable, e: Event): Option<Durable>
    requires e.StopCompleted?
  {
    if e.requestSeq == 0 || e.id !in d || d[e.id].pendingStop != e.requestSeq then None
    else if exists i | i in StopMembers(d, e.requestSeq) :: d[i].open then None
    else
      var covered := StopMembers(d, e.requestSeq);
      Some(map i | i in d ::
             var a := d[i].(queue := KeepUncovered(d[i].queue, covered));
             if i in covered then Unstop(a) else a)
  }

  function ApplyAcknowledged(d: Durable, e: Event): Option<Durable>
    requires e.DeliveryAcknowledged?
  {
    if e.id !in d || d[e.id].queue == [] || d[e.id].queue[0].did != e.acked then None
    else Some(d[e.id := d[e.id].(queue := d[e.id].queue[1..])])
  }

  function ApplyUpdatePosted(d: Durable, seqNo: nat, e: Event): Option<Durable>
    requires e.UpdatePosted?
  {
    if !OpenRun(d, e.id, e.generation) || d[e.id].phase != Running then None
    else if Queued(d[e.id].queue, Update(e.id, seqNo)) then None
    else Some(d[e.id := Enqueue(d[e.id], Update(e.id, seqNo), e.generation, e.note.(kind := UpdatePacket))])
  }

  function Apply(d: Durable, seqNo: nat, e: Event): Option<Durable> {
    match e
    case Created(_, _, _) => ApplyCreated(d, seqNo, e)
    case RunStarted(_, _, _) => ApplyRunStarted(d, e)
    case TerminalPrepared(_, _, _) => ApplyTerminalPrepared(d, e)
    case RunFinished(_, _, _, _, _, _) => ApplyRunFinished(d, e)
    case ResumabilityClosed(_) => ApplyResumabilityClosed(d, e)
    case StopRequested(_) => ApplyStopRequested(d, seqNo, e)
    case StopCompleted(_, _) => ApplyStopCompleted(d, e)
    case DeliveryAcknowledged(_, _) => ApplyAcknowledged(d, e)
    case UpdatePosted(_, _, _) => ApplyUpdatePosted(d, seqNo, e)
  }

  /** Folding a whole journal; event k has sequence k + 1. */
  function Fold(events: seq<Event>): Option<Durable> {
    if events == [] then Some(map[])
    else
      match Fold(events[..|events| - 1])
      case None => None
      case Some(d) => Apply(d, |events|, events[|events| - 1])
  }

  /** Continuing a fold over one batch. */
  function ApplyBatch(d: Durable, seqNo: nat, batch: seq<Event>): Option<Durable> {
    if batch == [] then Some(d)
    else
      match ApplyBatch(d, seqNo, batch[..|batch| - 1])
      case None => None
      case Some(mid) => Apply(mid, seqNo + |batch|, batch[|batch| - 1])
  }

  lemma {:induction false} FoldBatch(events: seq<Event>, d: Durable, batch: seq<Event>)
    requires Fold(events) == Some(d)
    ensures Fold(events + batch) == ApplyBatch(d, |events|, batch)
  {
    hide Apply;
    if batch == [] {
      assert events + batch == events;
    } else {
      var init := batch[..|batch| - 1];
      FoldBatch(events, d, init);
      assert (events + batch)[..|events + batch| - 1] == events + init;
    }
  }
}
