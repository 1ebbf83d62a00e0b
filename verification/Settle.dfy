/** How a generation's end is decided: prepared packets, live finishes, stops and lost runtimes. */
module Settle {
  import opened Types
  import opened Journal
  import opened State

  const MISSING := Packet(TerminalErrorPacket, MissingTerminalText, true, NoMetadata)
  const LOST := Packet(TerminalErrorPacket, LostText, true, NoMetadata)
  const STOPPED_META := Metadata(None, Some(Stopped), StoppedByParent, "", None, 0, None)
  const STOPPED := Packet(TerminalErrorPacket, StoppedText, true, Decoded(STOPPED_META))

  const NO_FINISH := Finish(None, None, NoReason, "", None, 0, None)

  function FinishOf(status: Status, disposition: Disposition, reason: Reason): Finish {
    Finish(Some(status), Some(disposition), reason, "", None, 0, None)
  }

  function ReasonPacket(reason: Reason): Packet {
    Packet(TerminalErrorPacket, OtherText(match reason case OtherReason(t) => t case _ => ""), true, NoMetadata)
  }

  function PacketDisposition(p: Packet): Disposition {
    if p.kind == ReportedPacket then ReportedRun else TerminalErrorRun
  }

  /** The finish a packet's metadata of an errored run describes; a field that does not fit its budget is ignored. */
  function MetadataFinish(base: Finish, m: Metadata): Finish {
    match m.outcome
    case Some(Cancelled) => if m.reason == CancelledCode then base.(outcome := Some(Cancelled), reason := CancelledCode) else base
    case Some(Failed) => base.(reason := if m.reason == NoReason then base.reason else m.reason, error := m.error)
    case Some(Exhausted) =>
      if m.limit <= 0 || m.resumable.None? || m.budget.None? then base
      else if m.budget.value == ToolRounds && m.resumable.value then
        base.(outcome := Some(Exhausted), reason := ToolRoundsExhausted, exhaustion := Some(Exhaustion(ToolRounds, m.limit, true)))
      else if m.budget.value == Turns && !m.resumable.value then
        base.(outcome := Some(Exhausted), reason := TurnsExhausted, exhaustion := Some(Exhaustion(Turns, m.limit, false)))
      else base
    case _ => base
  }

  /** The finish a prepared packet stands for. */
  function PreparedFinish(p: Packet): Finish {
    if p == MISSING then FinishOf(Failed, TerminalErrorRun, MissingTerminal)
    else
      var base := if p.kind == ReportedPacket then FinishOf(Completed, ReportedRun, NoReason)
                  else FinishOf(Failed, TerminalErrorRun, TerminalErrorCode);
      match p.metadata
      case Decoded(m) =>
        var timed := base.(endedAt := if m.endedAt.Some? then m.endedAt.value else 0);
        if p.kind == ReportedPacket then timed else MetadataFinish(timed, m)
      case _ => base
  }

  /** How a settled generation ends: outcome, disposition, reason, and the finish whose metadata it records. */
  datatype Verdict = Verdict(meta: Finish, prepared: Finish, outcome: Option<Status>, disposition: Option<Disposition>, reason: Reason)

  function SettledFinish(p: Packet, incoming: Finish): Verdict {
    var prepared := PreparedFinish(p);
    if p.kind == TerminalErrorPacket && p != MISSING && incoming.outcome.Some? && incoming.outcome.value != Completed then
      Verdict(incoming, prepared, incoming.outcome, Some(TerminalErrorRun), incoming.reason)
    else
      var meta := if prepared.outcome == Some(Exhausted) then prepared else incoming;
      Verdict(if prepared.outcome == Some(Failed) && meta.error == "" then meta.(error := prepared.error) else meta,
              prepared, prepared.outcome, prepared.disposition, prepared.reason)
  }

  /** The packet a stop settles over a run: its own when it ended as an error, restamped when it had reported. */
  function StoppedPacket(p: Option<Packet>): Packet {
    match p
    case None => STOPPED
    case Some(q) =>
      if q.kind != ReportedPacket then q
      else
        var meta := match q.metadata
                    case Decoded(m) => m.(outcome := Some(Stopped), reason := StoppedByParent)
                    case _ => STOPPED_META;
        q.(kind := TerminalErrorPacket, metadata := Decoded(meta))
  }

  function ReportId(l: Lease): DeliveryId { Report(l.id, l.generation) }

  function StoppedFinishEvent(l: Lease, packet: Option<Packet>, endedAt: nat): Event {
    RunFinished(l.id, l.generation, Outcome(Stopped, StoppedByParent, endedAt, None), TerminalErrorRun,
                Some(ReportId(l)), Some(StoppedPacket(packet)))
  }

  /** The closing events of a decided finish; a non-resumable exhaustion closes resumability in the same batch. */
  function FinishEvents(l: Lease, status: Status, disposition: Disposition, reason: Reason, endedAt: nat,
                        did: Option<DeliveryId>, meta: Finish): seq<Event> {
    var exhaustion := if status == Exhausted then meta.exhaustion else None;
    var finished := RunFinished(l.id, l.generation, Outcome(status, reason, endedAt, exhaustion), disposition, did, None);
    if exhaustion.Some? && !exhaustion.value.resumable then [finished, ResumabilityClosed(l.id)] else [finished]
  }

  function StatusOr(o: Option<Status>, default: Status): Status {
    if o.Some? then o.value else default
  }

  /** Finishing a settled generation from its prepared packet. */
  function SettlingEvents(l: Lease, p: Packet, incoming: Finish, endedAt: nat): seq<Event> {
    var v := SettledFinish(p, incoming);
    FinishEvents(l, StatusOr(v.outcome, Failed), if v.disposition.Some? then v.disposition.value else TerminalErrorRun,
                 v.reason, endedAt, Some(ReportId(l)), v.meta)
  }

  /** Finishing a running generation: an authorized no-action finish, or a packet prepared and finished in one batch. */
  function RunningEvents(l: Lease, finish: Finish, endedAt: nat): seq<Event> {
    if finish.disposition == Some(CompletedNoAction) then
      FinishEvents(l, StatusOr(finish.outcome, Completed), CompletedNoAction, finish.reason, endedAt, None, finish)
    else
      var missing := finish.outcome == Some(Completed) && finish.packet.None?;
      var packet := if missing then MISSING
                    else if finish.packet.Some? then finish.packet.value
                    else ReasonPacket(finish.reason);
      var status := if missing then Failed else StatusOr(finish.outcome, Failed);
      var reason := if missing then MissingTerminal else finish.reason;
      var disposition := if finish.disposition.Some? then finish.disposition.value else PacketDisposition(packet);
      [TerminalPrepared(l.id, l.generation, packet)] +
      FinishEvents(l, status, disposition, reason, endedAt, Some(ReportId(l)), finish)
  }

  function StartFailureEvents(l: Lease, failure: Finish, now: nat): seq<Event> {
    var packet := if failure.packet.Some? then failure.packet.value else ReasonPacket(failure.reason);
    [TerminalPrepared(l.id, l.generation, packet),
     RunFinished(l.id, l.generation,
                 Outcome(StatusOr(failure.outcome, Failed), failure.reason, if failure.endedAt != 0 then failure.endedAt else now, None),
                 TerminalErrorRun, Some(ReportId(l)), None)]
  }

  /** Finishing a generation whose runtime was lost in a restart, by the phase it was lost in. */
  function LostEvents(l: Lease, a: Aggregate, now: nat): Option<seq<Event>> {
    match a.phase
    case Running =>
      Some([TerminalPrepared(l.id, l.generation, LOST),
            RunFinished(l.id, l.generation, Outcome(Failed, RuntimeLost, now, None), TerminalErrorRun, Some(ReportId(l)), None)])
    case Settling =>
      if a.prepared.None? then None
      else
        var v := SettledFinish(a.prepared.value, NO_FINISH);
        Some(SettlingEvents(l, a.prepared.value, NO_FINISH, if v.prepared.endedAt != 0 then v.prepared.endedAt else now))
    case Stopping => Some([StoppedFinishEvent(l, None, now)])
    case _ => None
  }

  // ---- Crash equivalence ----

  predicate SameEnding(a: Verdict, b: Verdict) {
    a.outcome == b.outcome && a.disposition == b.disposition && a.reason == b.reason
  }

  /** A prepared packet settles the same way live and after a crash, whatever the run says of itself,
      exactly when it is a report or the missing-terminal packet. */
  lemma SettlesAlikeAfterCrash(p: Packet)
    requires ValidPacket(p)
    ensures (forall incoming :: SameEnding(SettledFinish(p, incoming), SettledFinish(p, NO_FINISH)))
            <==> (p.kind == ReportedPacket || p == MISSING)
  {
    if p.kind == TerminalErrorPacket && p != MISSING {
      var other := FinishOf(Stopped, TerminalErrorRun, NoReason);
      assert !SameEnding(SettledFinish(p, other), SettledFinish(p, NO_FINISH));
    }
  }

  /** A failed packet keeps its recorded cause through a settlement that brings none. */
  lemma FailedCauseSurvives(p: Packet, incoming: Finish)
    requires ValidPacket(p) && PreparedFinish(p).outcome == Some(Failed) && incoming.error == ""
    requires incoming.outcome.None? || incoming.outcome == Some(Completed)
    ensures SettledFinish(p, incoming).meta.error == SettledFinish(p, NO_FINISH).meta.error == PreparedFinish(p).error
  {
  }

  /** A stop never settles a report's packet: the kind it writes is the one the fold keeps. */
  lemma StoppedPacketIsKept(p: Option<Packet>)
    requires p.Some? ==> ValidPacket(p.value)
    ensures StoppedPacket(p).kind == TerminalErrorPacket
    ensures p.Some? ==> StoppedPacket(p).message == p.value.message && StoppedPacket(p).bare == p.value.bare
    ensures p.None? || p.value.kind == ReportedPacket ==>
              StoppedPacket(p).metadata.Decoded? && StoppedPacket(p).metadata.meta.outcome == Some(Stopped)
              && StoppedPacket(p).metadata.meta.reason == StoppedByParent
  {
  }
}
