/** What each journal event needs to be accepted, and exactly what it changes of the records. */
module FoldOutcomes {
  import opened Types
  import opened Tree
  import opened Journal
  import opened JournalLaws

  /** One record changes as given, and no other. */
  predicate Rewrites(d: Durable, r: Option<Durable>, id: Id, a: Aggregate) {
    r.Some? && r.value == d[id := a]
  }

  lemma CreationAccepted(d: Durable, n: nat, id: Id, parent: Id, resumable: bool)
    ensures var r := Apply(d, n, Created(id, parent, resumable));
            if id != NO_ID && id !in d && (parent == NO_ID || parent in d)
            then Rewrites(d, r, id, Aggregate(parent, n, 0, InitialTrigger, if resumable then Idle else Closed, false, None, resumable, None, [], 0)) else r.None?
  {
  }

  /** A run starts only from rest: idle, resumable, unmarked, at the next generation. */
  lemma StartAccepted(d: Durable, n: nat, id: Id, generation: nat, trigger: Trigger)
    ensures var r := Apply(d, n, RunStarted(id, generation, trigger));
            if id in d && d[id].phase == Idle && d[id].resumable && d[id].pendingStop == 0 && generation == d[id].generation + 1
            then Rewrites(d, r, id, d[id].(generation := generation, trigger := trigger, phase := Running, open := true, prepared := None)) else r.None?
  {
  }

  lemma PreparationAccepted(d: Durable, n: nat, id: Id, generation: nat, packet: Packet)
    ensures var r := Apply(d, n, TerminalPrepared(id, generation, packet));
            if id in d && d[id].open && d[id].generation == generation && d[id].phase == Running && packet.kind != UpdatePacket
            then Rewrites(d, r, id, d[id].(phase := Settling, prepared := Some(packet))) else r.None?
  {
  }

  /** A report goes to the end of the queue, to the parent. */
  function Told(a: Aggregate, id: Id, generation: nat, packet: Packet): Aggregate {
    a.(queue := a.queue + [Pending(Report(id, generation), generation, a.parent, packet)])
  }

  /** A finish under a stop records the stop whatever it says; its owner is told unless the same stop covers it. */
  lemma StoppedFinishAccepted(d: Durable, n: nat, e: Event)
    requires e.RunFinished? && e.id in d && d[e.id].phase == Stopping
    ensures var r, a := Apply(d, n, e), d[e.id];
            var closed := a.(open := false, outcome := Some(Outcome(Stopped, StoppedByParent, e.outcome.endedAt, e.outcome.exhaustion)));
            var told := !(a.parent != NO_ID && a.parent in d && d[a.parent].pendingStop == a.pendingStop);
            if a.open && a.generation == e.generation && ValidOutcome(e.outcome)
               && (told ==> e.did == Some(Report(e.id, e.generation)) && forall k | 0 <= k < |a.queue| :: a.queue[k].did != Report(e.id, e.generation))
            then Rewrites(d, r, e.id, if !told then closed
                                      else Told(closed, e.id, e.generation, if e.finishPacket.Some? && e.finishPacket.value.kind == TerminalErrorPacket
                                                                            then e.finishPacket.value else BARE_STOP))
            else r.None?
  {
  }

  /** An ordinary finish: without action only for an attention run that prepared nothing; otherwise with a packet of the kind its
      disposition says, the event's own or the prepared one, told to the owner once. */
  lemma OrdinaryFinishAccepted(d: Durable, n: nat, e: Event)
    requires e.RunFinished? && e.id in d && (d[e.id].phase == Running || d[e.id].phase == Settling)
    ensures var r, a := Apply(d, n, e), d[e.id];
            var closed := a.(open := false, prepared := None, outcome := Some(e.outcome), phase := if a.resumable then Idle else Closed);
            var packet := if e.finishPacket.Some? then e.finishPacket else a.prepared;
            if !a.open || a.generation != e.generation || !ValidOutcome(e.outcome) then r.None?
            else if e.disposition == CompletedNoAction then
              if a.trigger == AttentionTrigger && e.outcome.status == Completed && e.did.None? && packet.None? then Rewrites(d, r, e.id, closed) else r.None?
            else if packet.Some? && packet.value.kind == (if e.disposition == ReportedRun then ReportedPacket else TerminalErrorPacket)
                    && e.did == Some(Report(e.id, e.generation)) && forall k | 0 <= k < |a.queue| :: a.queue[k].did != Report(e.id, e.generation)
            then Rewrites(d, r, e.id, Told(closed, e.id, e.generation, packet.value)) else r.None?
  {
  }

  lemma FinishNeedsARun(d: Durable, n: nat, e: Event)
    requires e.RunFinished? && (e.id !in d || d[e.id].phase == Idle || d[e.id].phase == Closed)
    ensures Apply(d, n, e).None?
  {
  }

  /** Exhaustion is recorded with its budget, which fixes its reason and whether it can be resumed from. */
  lemma OutcomesExactly(o: Outcome)
    ensures ValidOutcome(o) <==>
            if o.status == Exhausted
            then o.exhaustion.Some? && o.exhaustion.value.limit > 0
                 && (o.exhaustion.value.budget == ToolRounds ==> o.reason == ToolRoundsExhausted && o.exhaustion.value.resumable)
                 && (o.exhaustion.value.budget == Turns ==> o.reason == TurnsExhausted && !o.exhaustion.value.resumable)
            else o.exhaustion.None?
  {
  }

  lemma ClosureAccepted(d: Durable, n: nat, id: Id)
    ensures var r := Apply(d, n, ResumabilityClosed(id));
            if id in d && d[id].resumable then Rewrites(d, r, id, d[id].(resumable := false, phase := if d[id].phase == Idle then Closed else d[id].phase)) else r.None?
  {
  }

  /** A stop request is accepted for a known target while nothing is marked; it marks the subtree, and whatever is not closed stops. */
  lemma StopAccepted(d: Durable, n: nat, target: Id)
    ensures var r := Apply(d, n, StopRequested(target));
            if target in d && forall i | i in d :: d[i].pendingStop == 0
            then r.Some? && r.value.Keys == d.Keys
                 && forall i | i in d :: r.value[i] == if Under(ShapeOf(d), i, target)
                                                       then d[i].(pendingStop := n, phase := if d[i].phase == Closed then Closed else Stopping) else d[i]
            else r.None?
  {
    hide Under, ShapeOf;
  }

  /** A stop completes over its own marks once no marked run is open: marks go, phases return to rest, covered owners' queues are dropped. */
  lemma CompletionAccepted(d: Durable, n: nat, target: Id, seqNo: nat)
    requires forall i | i in d :: forall k | 0 <= k < |d[i].queue| :: d[i].queue[k].owner == d[i].parent
    ensures var r := Apply(d, n, StopCompleted(target, seqNo));
            if target in d && seqNo != 0 && d[target].pendingStop == seqNo && forall i | i in d && d[i].pendingStop == seqNo :: !d[i].open
            then r.Some? && r.value.Keys == d.Keys
                 && forall i | i in d ::
                      var kept := d[i].(queue := if d[i].parent in d && d[d[i].parent].pendingStop == seqNo then [] else d[i].queue);
                      r.value[i] == if d[i].pendingStop == seqNo then kept.(pendingStop := 0, prepared := None, phase := if d[i].resumable then Idle else Closed) else kept
            else r.None?
  {
    forall i | i in d ensures KeepUncovered(d[i].queue, StopMembers(d, seqNo)) == if d[i].parent in StopMembers(d, seqNo) then [] else d[i].queue {
      KeepsAll(d[i].queue, StopMembers(d, seqNo), d[i].parent);
    }
    hide KeepUncovered;
  }

  lemma AcknowledgementAccepted(d: Durable, n: nat, id: Id, did: DeliveryId)
    ensures var r := Apply(d, n, DeliveryAcknowledged(id, did));
            if id in d && d[id].queue != [] && d[id].queue[0].did == did then Rewrites(d, r, id, d[id].(queue := d[id].queue[1..])) else r.None?
  {
  }

  lemma UpdateAccepted(d: Durable, n: nat, id: Id, generation: nat, note: Packet)
    ensures var r := Apply(d, n, UpdatePosted(id, generation, note));
            if id in d && d[id].open && d[id].generation == generation && d[id].phase == Running && forall k | 0 <= k < |d[id].queue| :: d[id].queue[k].did != Update(id, n)
            then Rewrites(d, r, id, d[id].(queue := d[id].queue + [Pending(Update(id, n), generation, d[id].parent, note.(kind := UpdatePacket))])) else r.None?
  {
  }
}
