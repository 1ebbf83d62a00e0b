/** What a packet stands for, and how a settled generation ends, case by case. */
module SettleOutcomes {
  import opened Types
  import opened Journal
  import opened State
  import opened Settle

  /** An exhaustion is believed with a positive limit and the one resumability its budget allows. */
  predicate Exhausts(m: Metadata) {
    m.outcome == Some(Exhausted) && m.limit > 0 && ((m.budget == Some(ToolRounds) && m.resumable == Some(true)) || (m.budget == Some(Turns) && m.resumable == Some(false)))
  }

  predicate Cancels(m: Metadata) {
    m.outcome == Some(Cancelled) && m.reason == CancelledCode
  }

  /** An errored packet's metadata describes an exhaustion or a cancellation it can vouch for, names the cause of a failure, and is a plain
      terminal error otherwise. */
  lemma ErrorSays(p: Packet)
    requires p.kind != ReportedPacket && p.metadata.Decoded?
    ensures var f, m := PreparedFinish(p), p.metadata.meta;
            && f.disposition == Some(TerminalErrorRun) && f.packet.None?
            && f.endedAt == (if m.endedAt.Some? then m.endedAt.value else 0)
            && (f.exhaustion.Some? <==> Exhausts(m)) && (f.outcome == Some(Exhausted) <==> Exhausts(m)) && (f.outcome == Some(Cancelled) <==> Cancels(m))
            && (Exhausts(m) ==>
                  && f.exhaustion == Some(Exhaustion(m.budget.value, m.limit, m.resumable.value))
                  && f.reason == if m.budget == Some(Turns) then TurnsExhausted else ToolRoundsExhausted)
            && (Cancels(m) ==> f.reason == CancelledCode)
            && (!Exhausts(m) && !Cancels(m) ==>
                  && f.outcome == Some(Failed)
                  && f.reason == (if m.outcome == Some(Failed) && m.reason != NoReason then m.reason else TerminalErrorCode))
            && f.error == (if m.outcome == Some(Failed) then m.error else "")
  {
  }

  /** A report completes its run, a packet without readable metadata is a plain terminal error, and the missing-terminal packet says so. */
  lemma OtherPacketsSay(p: Packet)
    ensures p.kind == ReportedPacket ==>
              PreparedFinish(p) == FinishOf(Completed, ReportedRun, NoReason).(
                endedAt := if p.metadata.Decoded? && p.metadata.meta.endedAt.Some? then p.metadata.meta.endedAt.value else 0)
    ensures p == MISSING ==> PreparedFinish(p) == FinishOf(Failed, TerminalErrorRun, MissingTerminal)
    ensures p.kind != ReportedPacket && p != MISSING && !p.metadata.Decoded? ==> PreparedFinish(p) == FinishOf(Failed, TerminalErrorRun, TerminalErrorCode)
  {
  }

  /** What a packet stands for can always be journaled. */
  lemma PreparedIsValid(p: Packet, at: nat)
    ensures var f := PreparedFinish(p); f.outcome.Some? && ValidOutcome(Outcome(f.outcome.value, f.reason, at, f.exhaustion))
  {
  }

  /** The run's own word counts only over an error packet, and only when it did not complete; otherwise the packet decides. */
  lemma VerdictIs(p: Packet, incoming: Finish)
    requires ValidPacket(p)
    ensures var v, f := SettledFinish(p, incoming), PreparedFinish(p);
            && v.prepared == f
            && if p.kind != ReportedPacket && p != MISSING && incoming.outcome.Some? && incoming.outcome != Some(Completed)
               then v.meta == incoming && v.outcome == incoming.outcome && v.disposition == Some(TerminalErrorRun) && v.reason == incoming.reason
               else && v.outcome == f.outcome && v.disposition == f.disposition && v.reason == f.reason
                    && v.meta.exhaustion == (if f.outcome == Some(Exhausted) then f.exhaustion else incoming.exhaustion)
                    && v.meta.error == (if f.outcome == Some(Exhausted) then f.error else if f.outcome == Some(Failed) && incoming.error == "" then f.error else incoming.error)
  {
    hide PreparedFinish;
  }

  /** A stop restamps a report's metadata with itself and leaves the rest of it; an error keeps its own. */
  lemma StoppedPacketSays(p: Packet)
    ensures var q := StoppedPacket(Some(p));
            if p.kind != ReportedPacket then q == p
            else && q.kind == TerminalErrorPacket && q.message == p.message && q.bare == p.bare
                 && q.metadata == Decoded(if p.metadata.Decoded? then p.metadata.meta.(outcome := Some(Stopped), reason := StoppedByParent) else STOPPED_META)
    ensures StoppedPacket(None) == Packet(TerminalErrorPacket, StoppedText, true, Decoded(Metadata(None, Some(Stopped), StoppedByParent, "", None, 0, None)))
  {
  }
}
