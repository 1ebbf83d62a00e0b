/** No-action finishes and steering, over whole runs. */
module RunSteps {
  import SteerProjection
  import opened Types
  import opened Tree
  import opened Journal
  import opened JournalLaws
  import opened State
  import opened Finishing
  import opened Starting
  import opened Claims
  import opened Delivering
  import opened Stopping
  import opened Fences
  import opened Machine
  import opened Effects
  import opened Invariants
  import opened ClaimKept
  import opened StartKept
  import opened Writes
  import opened Accounts
  import opened Lanes
  import opened Carriers
  import opened Waiters
  import opened Reclaim
  import opened Safety
  import opened RunTheorems

  // ---- What a step may do to a live generation ----

  /** Leases stay or are given up, and a kept generation's evidence only grows. */
  ghost predicate LeasesSettle(a: map<Id, Live>, b: map<Id, Live>) {
    EvidenceGrows(a, b) && forall i :: LeaseAt(b, i) == LeaseAt(a, i) || LeaseAt(b, i).None?
  }

  lemma SameIsSettled(s: State, n: State)
    requires n.runs.live == s.runs.live
    ensures LeasesSettle(s.runs.live, n.runs.live)
  {
  }

  lemma StartSettles(s: State, x: StartStep)
    requires JournalInv(s.store.journal, s.store.durable)
    ensures var n := NextStart(s, x);
            LeasesSettle(s.runs.live, n.runs.live) || (x.DoCommitStart? && Committed(s, n, x.token))
  {
    hide JournalInv, ReserveCreate, ReserveStart, ReserveAttention, ReserveOwedAttention, RegisterWaiter, ReleaseReservation, CommitStart, AttachRuntime,
         AttachIdleRuntime, BeginStartInput, CompleteStartInput, FailCommitted, Committed, EvidenceAt, LeaseAt, Wrote;
    if x.DoCommitStart? { CommitSettles(s, x.token, x.cancelled, x.pending, x.storeOk); }
    else if !x.DoAttachRuntime? && !x.DoAttachIdleRuntime? && !x.DoBeginStartInput? && !x.DoCompleteStartInput? && !x.DoFailCommitted? {
      SameIsSettled(s, NextStart(s, x));
    }
  }

  lemma CommitSettles(s: State, t: Token, cancelled: bool, pending: set<nat>, storeOk: bool)
    requires JournalInv(s.store.journal, s.store.durable)
    ensures var n := CommitStart(s, t, cancelled, pending, storeOk); LeasesSettle(s.runs.live, n.runs.live) || Committed(s, n, t)
  {
    hide JournalInv, Committed, CommitRefused, StartEvents, StartedLive, AddChildEdge, UntrackStart, Append, LeasesSettle;
    var n := CommitStart(s, t, cancelled, pending, storeOk);
    if t in s.runs.reservations && !CommitRefused(s, s.runs.reservations[t], cancelled) && Append(s, StartEvents(s.runs.reservations[t]), storeOk).Some? {
      CommitLands(s, t, cancelled, pending, storeOk);
    } else {
      SameIsSettled(s, n);
    }
  }

  lemma FinishSettles(s: State, x: FinishStep)
    ensures LeasesSettle(s.runs.live, NextFinish(s, x).runs.live)
  {
    hide FinishGeneration, BeginFinalization, CompleteSettlement, FinishNoAction, PrepareNoAction, RequireRecovery, ReportQuiesced, AdmitReportWork,
         RecordNoAction, RecordTerminalSeen, LeaseAt, EvidenceAt;
    if x.DoBeginFinalization? { SameIsSettled(s, NextFinish(s, x)); }
  }

  lemma ClaimSettles(s: State, x: ClaimStep)
    ensures LeasesSettle(s.runs.live, NextClaim(s, x).runs.live)
  {
    hide BeginSteer, CompleteSteer, AbortSteer, BeginModel, CompleteModel, AbortModel, BeginWork, CommitWork, AbortWork, FinishWork,
         BeginQuiet, CompleteQuiet, BeginEnqueue, CompleteEnqueue, AbortEnqueue, AcquireWatch, CompleteWatch, LeaseAt, EvidenceAt;
    if !x.DoCompleteSteer? && !x.DoCompleteModel? && !x.DoBeginQuiet? && !x.DoCompleteQuiet? { SameIsSettled(s, NextClaim(s, x)); }
  }

  lemma DeliverSettles(s: State, x: DeliverStep)
    ensures LeasesSettle(s.runs.live, NextDeliver(s, x).runs.live)
  {
    hide PostUpdate, PlanDelivery, BeginDelivery, CompleteDelivery, LeaveForRetry, HoldClaim, DropClaim, WithdrawWaiter, DropStoppedWaiter, AnswerWaiter,
         LeaseAt, EvidenceAt;
    if !x.DoPlanDelivery? && !x.DoWithdrawWaiter? && !x.DoDropStoppedWaiter? { SameIsSettled(s, NextDeliver(s, x)); }
  }

  lemma StopSettles(s: State, x: StopStep)
    ensures LeasesSettle(s.runs.live, NextStop(s, x).runs.live)
  {
    hide StopSubtree, RecoverStopped, CompleteStop, LoseRuntime, ForgetLost, BeginClosing, CloseResumability, CloseUnrestorable, OpenAttention,
         ForgetAttention, EvidenceAt, RestoredStop, DerivedIndex, OwedWakes;
    if !x.DoRecoverStopped? && !x.DoRestart? { SameIsSettled(s, NextStop(s, x)); }
  }

  lemma FenceSettles(s: State, x: FenceStep)
    ensures LeasesSettle(s.runs.live, NextFence(s, x).runs.live)
  {
    hide BeginHandoff, EndHandoff, BeginRestore, EndRestore, HoldRestore, ReleaseHold, ClaimReclamation, ClaimIdleRelease, CompleteReclamation,
         AbortReclamation, LeaseAt, EvidenceAt;
    if !x.DoCompleteReclamation? { SameIsSettled(s, NextFence(s, x)); }
  }

  // ---- No-action finishes ----

  /** The generation is bound and has shown nothing that owes a report. */
  predicate Clean(s: State, l: Lease) {
    LeaseAt(s.runs.live, l.id) == Some(l) && !EvidenceAt(s.runs.live, l.id).reportRequired && !EvidenceAt(s.runs.live, l.id).terminalSeen
  }

  /** A generation that was started and can no longer end without a report. */
  predicate Spoiled(s: State, l: Lease) {
    l.id in s.store.durable && l.generation <= s.store.durable[l.id].generation && !Clean(s, l)
  }

  lemma GenerationStays(s: State, n: State, id: Id)
    requires Fold(s.store.journal) == Some(s.store.durable) && Fold(n.store.journal) == Some(n.store.durable) && s.store.journal <= n.store.journal
    requires id in s.store.durable
    ensures id in n.store.durable && s.store.durable[id].generation <= n.store.durable[id].generation
  {
    hide Fold;
    assert n.store.journal[..|s.store.journal|] == s.store.journal;
    GenerationsGrow(n.store.journal, |s.store.journal|, id);
  }

  lemma SettledStaysSpoiled(s: State, n: State, l: Lease)
    requires Spoiled(s, l) && LeasesSettle(s.runs.live, n.runs.live)
    ensures !Clean(n, l)
  {
  }

  lemma CommittedStaysSpoiled(s: State, n: State, t: Token, l: Lease)
    requires Spoiled(s, l) && Committed(s, n, t)
    ensures !Clean(n, l)
  {
    hide JournalInv, ShapeOf;
    var r := s.runs.reservations[t];
    OpenedLeases(s.runs.live, n.runs.live, r, if r.id in s.runs.live then s.runs.live[r.id] else NO_LIVE);
    if l.id != r.id { assert EvidenceAt(n.runs.live, l.id) == EvidenceAt(s.runs.live, l.id); }
  }

  lemma StepStaysDirty(s: State, step: Step, l: Lease)
    requires JournalInv(s.store.journal, s.store.durable) && Spoiled(s, l)
    ensures !Clean(Next(s, step), l)
  {
    hide JournalInv, NextStart, NextFinish, NextClaim, NextDeliver, NextStop, NextFence, LeasesSettle, Spoiled, Clean, Committed;
    var n := Next(s, step);
    match step
    case Starts(x) =>
      StartSettles(s, x);
      if x.DoCommitStart? && Committed(s, n, x.token) { CommittedStaysSpoiled(s, n, x.token, l); } else { SettledStaysSpoiled(s, n, l); }
    case Finishes(x) =>
      FinishSettles(s, x);
      SettledStaysSpoiled(s, n, l);
    case ClaimsWork(x) =>
      ClaimSettles(s, x);
      SettledStaysSpoiled(s, n, l);
    case Delivers(x) =>
      DeliverSettles(s, x);
      SettledStaysSpoiled(s, n, l);
    case Stops(x) =>
      StopSettles(s, x);
      SettledStaysSpoiled(s, n, l);
    case FencesOff(x) =>
      FenceSettles(s, x);
      SettledStaysSpoiled(s, n, l);
  }

  lemma StepStaysSpoiled(s: State, step: Step, l: Lease)
    requires Inv(s) && Spoiled(s, l)
    ensures Spoiled(Next(s, step), l)
  {
    hide CoreInv, LaneInv, InHand, CarryInv, NoStoppedClaim, WaitInv, ReclInv, Next, StopAlwaysWins, Clean;
    var n := Next(s, step);
    CoreParts(s);
    StepKeepsCore(s, step);
    CoreParts(n);
    FoldedJournal(s);
    FoldedJournal(n);
    StepWins(s, step);
    StepStaysDirty(s, step, l);
    GenerationStays(s, n, l.id);
  }

  /** The new events of a step hold no no-action finish of `l`. */
  ghost predicate NoneFor(s: State, n: State, l: Lease) {
    && s.store.journal <= n.store.journal
    && forall k | |s.store.journal| <= k < |n.store.journal| && NoAction(n.store.journal[k]) ::
         n.store.journal[k].id != l.id || n.store.journal[k].generation != l.generation
  }

  lemma WroteNone(s: State, n: State, l: Lease)
    requires Wrote(s, n)
    ensures NoneFor(s, n, l)
  {
    hide StopWins;
    var batch := n.store.journal[|s.store.journal|..];
    forall k | |s.store.journal| <= k < |n.store.journal| ensures !NoAction(n.store.journal[k]) {
      assert n.store.journal[k] == batch[k - |s.store.journal|];
    }
  }

  /** What a generation finished without action has shown. */
  ghost predicate Warranted(s: State, t: Token) {
    && t in s.tables.settlements && s.tables.settlements[t].runErrorKnown && !s.tables.settlements[t].runFailed
    && var l := s.tables.settlements[t].lease;
    && Clean(s, l) && l.id in s.store.durable && s.store.durable[l.id].trigger == AttentionTrigger
    && EvidenceAt(s.runs.live, l.id).fallback.Some?
  }

  lemma EligibleIsWarranted(s: State, t: Token)
    requires NoActionEligible(s, t, true) && s.runs.live[s.tables.settlements[t].lease.id].binding.value.evidence.fallback.Some?
    ensures Warranted(s, t)
  {
  }

  /** A finish step that journals a no-action finish is the authorized one, of a warranted settlement claim for that generation. */
  lemma FinishIsWarranted(s: State, x: FinishStep, k: nat)
    requires JournalInv(s.store.journal, s.store.durable)
    requires |s.store.journal| <= k < |NextFinish(s, x).store.journal| && NoAction(NextFinish(s, x).store.journal[k])
    ensures x.DoFinishNoAction? && Warranted(s, x.token)
    ensures NextFinish(s, x).store.journal[k].id == s.tables.settlements[x.token].lease.id
    ensures NextFinish(s, x).store.journal[k].generation == s.tables.settlements[x.token].lease.generation
  {
    hide JournalInv, FinishGeneration, BeginFinalization, CompleteSettlement, FinishNoAction, PrepareNoAction, RequireRecovery, ReportQuiesced,
         AdmitReportWork, RecordNoAction, RecordTerminalSeen, Wrote, Calmer, QueuesGrow, StopWins, Lawful, Warranted, NoActionEligible;
    var n := NextFinish(s, x);
    if x.DoFinishNoAction? {
      FinishNoActionWrites(s, x.token, x.now, x.storeOk);
      EligibleIsWarranted(s, x.token);
      assert n.store.journal[k] == n.store.journal[|s.store.journal|..][k - |s.store.journal|];
    } else {
      FinishTame(s, x);
      NeverIn(s, n, k);
    }
  }

  lemma NeverIn(s: State, n: State, k: nat)
    requires Wrote(s, n) && |s.store.journal| <= k < |n.store.journal|
    ensures !NoAction(n.store.journal[k])
  {
    hide StopWins;
    assert n.store.journal[k] == n.store.journal[|s.store.journal|..][k - |s.store.journal|];
  }

  lemma FinishNone(s: State, x: FinishStep, l: Lease)
    requires JournalInv(s.store.journal, s.store.durable) && !Clean(s, l)
    ensures NoneFor(s, NextFinish(s, x), l)
  {
    hide JournalInv, NextFinish, Wrote, Calmer, QueuesGrow, StopWins, Lawful, Clean, Won;
    var n := NextFinish(s, x);
    FinishWins(s, x);
    WonGrows(s, n);
    forall k | |s.store.journal| <= k < |n.store.journal| && NoAction(n.store.journal[k])
      ensures n.store.journal[k].id != l.id || n.store.journal[k].generation != l.generation
    {
      FinishIsWarranted(s, x, k);
      assert s.tables.settlements[x.token].lease != l;
    }
  }

  lemma WonGrows(s: State, n: State)
    requires Won(s, n)
    ensures s.store.journal <= n.store.journal
  {
  }

  lemma StepNone(s: State, step: Step, l: Lease)
    requires JournalInv(s.store.journal, s.store.durable) && !Clean(s, l)
    ensures NoneFor(s, Next(s, step), l)
  {
    hide JournalInv, NextStart, NextFinish, NextClaim, NextDeliver, NextStop, NextFence, Wrote, Clean, NoneFor, Calmer, QueuesGrow, Committed, Acked;
    var n := Next(s, step);
    match step
    case Starts(x) =>
      StartTame(s, x);
      WroteNone(s, n, l);
    case Finishes(x) => FinishNone(s, x, l);
    case ClaimsWork(x) =>
      ClaimFrame(s, x);
      NothingNew(s, n, l);
    case Delivers(x) => DeliverNone(s, x, l);
    case Stops(x) => StopNone(s, x, l);
    case FencesOff(x) =>
      FenceFrame(s, x);
      NothingNew(s, n, l);
  }

  /** The step from `s` to `n` journals a no-action finish as event `k`. */
  predicate JournalsNoAction(s: State, n: State, k: nat) {
    |s.store.journal| <= k < |n.store.journal| && NoAction(n.store.journal[k])
  }

  /** The step finishes a warranted settlement claim without action, and `e` is that finish. */
  ghost predicate Authorizes(s: State, step: Step, e: Event) {
    && step.Finishes? && step.finish.DoFinishNoAction? && Warranted(s, step.finish.token) && NoAction(e)
    && e.id == s.tables.settlements[step.finish.token].lease.id && e.generation == s.tables.settlements[step.finish.token].lease.generation
  }

  ghost predicate WarrantedAt(s: State, step: Step, n: State, k: nat) {
    JournalsNoAction(s, n, k) ==> Authorizes(s, step, n.store.journal[k])
  }

  lemma NoneIsNone(s: State, n: State, k: nat)
    requires JournalsNoAction(s, n, k)
    ensures !NoneFor(s, n, Lease(n.store.journal[k].id, n.store.journal[k].generation))
  {
  }

  /** Whatever the step: one that journals a no-action finish finishes a warranted claim of that very generation. */
  lemma NoActionIsWarranted(s: State, step: Step, k: nat)
    requires JournalInv(s.store.journal, s.store.durable)
    ensures WarrantedAt(s, step, Next(s, step), k)
  {
    hide JournalInv, NextStart, NextFinish, NextClaim, NextDeliver, NextStop, NextFence, Wrote, NoneFor, Calmer, QueuesGrow, Committed, Acked, Warranted;
    var n := Next(s, step);
    if JournalsNoAction(s, n, k) {
      var l := Lease(n.store.journal[k].id, n.store.journal[k].generation);
      NoneIsNone(s, n, k);
      match step
      case Starts(x) =>
        StartTame(s, x);
        WroteNone(s, n, l);
      case Finishes(x) => FinishIsWarranted(s, x, k);
      case ClaimsWork(x) => ClaimFrame(s, x);
      case Delivers(x) => DeliverNone(s, x, l);
      case Stops(x) => StopNone(s, x, l);
      case FencesOff(x) => FenceFrame(s, x);
    }
  }

  /** Some step of the run finished a warranted claim without action, and `e` is that finish. */
  ghost predicate AuthorizedIn(s: State, steps: seq<Step>, e: Event) {
    hide Run; exists j: nat :: AuthorizesAt(s, steps, j, e)
  }

  ghost predicate AuthorizesAt(s: State, steps: seq<Step>, j: nat, e: Event) {
    hide Run; j < |steps| && Authorizes(Run(s, steps[..j]), steps[j], e)
  }

  ghost predicate AllWarranted(s: State, steps: seq<Step>, journal: seq<Event>) {
    hide Run; forall k | 0 <= k < |journal| && NoAction(journal[k]) :: AuthorizedIn(s, steps, journal[k])
  }

  /** In every run, every no-action finish was the authorized one of a warranted claim when it was journaled. */
  lemma {:induction false} EveryNoActionWasWarranted(limits: Limits, steps: seq<Step>)
    ensures AllWarranted(Init(limits), steps, Run(Init(limits), steps).store.journal)
  {
    hide Inv, Next, JournalInv, Authorizes, CoreInv;
    if steps != [] {
      var init, step := steps[..|steps| - 1], steps[|steps| - 1];
      var s := Run(Init(limits), init);
      var n := Next(s, step);
      EveryNoActionWasWarranted(limits, init);
      RunKeepsInv(limits, init);
      JournalGrowsBy(s, step);
      assert steps == init + [step];
      forall k | 0 <= k < |n.store.journal| && NoAction(n.store.journal[k]) ensures AuthorizedIn(Init(limits), steps, n.store.journal[k]) {
        if k < |s.store.journal| {
          assert n.store.journal[k] == s.store.journal[k];
          StaysAuthorized(Init(limits), init, step, steps, n.store.journal[k]);
        } else {
          NoActionIsWarranted(s, step, k);
          NowAuthorized(Init(limits), init, step, steps, |init|, n.store.journal[k]);
        }
      }
    }
  }

  lemma JournalGrowsBy(s: State, step: Step)
    requires Inv(s)
    ensures JournalInv(s.store.journal, s.store.durable) && s.store.journal <= Next(s, step).store.journal
  {
    hide CoreInv, LaneInv, InHand, CarryInv, NoStoppedClaim, WaitInv, ReclInv, StopAlwaysWins, Next, Won, StopWins;
    CoreParts(s);
    StepWins(s, step);
    WonGrows(s, Next(s, step));
  }

  lemma StaysAuthorized(s: State, init: seq<Step>, step: Step, steps: seq<Step>, e: Event)
    requires steps == init + [step] && AuthorizedIn(s, init, e)
    ensures AuthorizedIn(s, steps, e)
  {
    hide Run, Authorizes;
    var j: nat :| AuthorizesAt(s, init, j, e);
    assert steps[..j] == init[..j] && steps[j] == init[j];
    assert AuthorizesAt(s, steps, j, e);
  }

  lemma NowAuthorized(s: State, init: seq<Step>, step: Step, steps: seq<Step>, j: nat, e: Event)
    requires steps == init + [step] && j == |init| && Authorizes(Run(s, init), step, e)
    ensures AuthorizedIn(s, steps, e)
  {
    hide Run, Authorizes;
    assert steps[..j] == init;
    assert AuthorizesAt(s, steps, j, e);
  }

  lemma NothingNew(s: State, n: State, l: Lease)
    requires n.store.journal == s.store.journal
    ensures NoneFor(s, n, l)
  {
  }

  lemma DeliverNone(s: State, x: DeliverStep, l: Lease)
    requires JournalInv(s.store.journal, s.store.durable)
    ensures NoneFor(s, NextDeliver(s, x), l)
  {
    hide JournalInv, Wrote, NoneFor, Calmer, QueuesGrow, Acked, PostUpdate, PlanDelivery, BeginDelivery, CompleteDelivery, LeaveForRetry, HoldClaim,
         DropClaim, WithdrawWaiter, DropStoppedWaiter, AnswerWaiter;
    if x.DoCompleteDelivery? { CompleteDeliveryWrites(s, x.token, x.committed, x.wake, x.storeOk); } else { DeliverTame(s, x); }
    WroteNone(s, NextDeliver(s, x), l);
  }

  lemma StopNone(s: State, x: StopStep, l: Lease)
    requires JournalInv(s.store.journal, s.store.durable)
    ensures NoneFor(s, NextStop(s, x), l)
  {
    hide JournalInv, Wrote, Calmer, QueuesGrow, Requested, SameWork, StopMembers, Drained, WakesOf, StopSubtree, RecoverStopped, CompleteStop, Restart,
         LoseRuntime, ForgetLost, BeginClosing, CloseResumability, CloseUnrestorable, OpenAttention, ForgetAttention;
    var n := NextStop(s, x);
    if x.DoStopSubtree? {
      StopSubtreeWrites(s, x.actor, x.target, x.allowClosing, x.storeOk);
      WroteNone(s, n, l);
    } else if x.DoCompleteStop? {
      CompleteStopWrites(s, x.evidenceClean, x.storeOk);
    } else {
      StopStepTame(s, x);
      WroteNone(s, n, l);
    }
  }

  /** Once a generation owes a report, has shown a terminal, or lost its runtime, no run ever journals a no-action finish for it. */
  lemma {:induction false} SpoiledNeverEndsWithoutAction(s: State, steps: seq<Step>, l: Lease)
    requires Inv(s) && Spoiled(s, l)
    ensures Inv(Run(s, steps)) && Spoiled(Run(s, steps), l) && NoneFor(s, Run(s, steps), l)
  {
    hide Inv, Next, Spoiled;
    if steps != [] {
      var mid, last := Run(s, steps[..|steps| - 1]), steps[|steps| - 1];
      SpoiledNeverEndsWithoutAction(s, steps[..|steps| - 1], l);
      StepKeepsInv(mid, last);
      StepStaysSpoiled(mid, last, l);
      InvParts(mid, l);
      StepNone(mid, last, l);
      NoneJoins(s, mid, Next(mid, last), l);
    }
  }

  lemma InvParts(s: State, l: Lease)
    requires Inv(s) && Spoiled(s, l)
    ensures JournalInv(s.store.journal, s.store.durable) && !Clean(s, l)
  {
    hide CoreInv, LaneInv, InHand, CarryInv, NoStoppedClaim, WaitInv, ReclInv, StopAlwaysWins, Clean;
    CoreParts(s);
  }

  lemma NoneJoins(s: State, m: State, n: State, l: Lease)
    requires NoneFor(s, m, l) && NoneFor(m, n, l)
    ensures NoneFor(s, n, l)
  {
    forall k | |s.store.journal| <= k < |n.store.journal| && NoAction(n.store.journal[k])
      ensures n.store.journal[k].id != l.id || n.store.journal[k].generation != l.generation
    {
      if k < |m.store.journal| { assert n.store.journal[k] == m.store.journal[k]; }
    }
  }

  /** What spoils a generation: report-requiring work, a seen terminal, or a steer its model request bound. */
  lemma WorkSpoils(s: State, l: Lease)
    requires ExactLease(s, l)
    ensures Spoiled(AdmitReportWork(s, l), l) && Spoiled(RecordTerminalSeen(s, l), l)
  {
  }

  lemma BoundSteerSpoils(s: State, t: Token, history: seq<SteerProjection.Turn>)
    requires t in s.tables.models && Admitted(s, s.tables.models[t].lease)
    requires s.runs.live[s.tables.models[t].lease.id].binding.value.runtime == s.tables.models[t].runtime
    requires exists e :: e in s.tables.models[t].entries && SteerProjection.Holds(history, e)
    ensures Spoiled(CompleteModel(s, t, history), s.tables.models[t].lease)
  {
    hide Fenced, Reclaimed, Unbind, BoundBy;
    var e :| e in s.tables.models[t].entries && SteerProjection.Holds(history, e);
    BoundByExactly(s, s.tables.models[t], history, e);
    assert e in BoundBy(s, s.tables.models[t], history);
  }

  lemma OwnerInputSpoils(s: State, n: State, t: Token)
    requires Committed(s, n, t) && s.runs.reservations[t].trigger != AttentionTrigger
    ensures Spoiled(n, Lease(s.runs.reservations[t].id, s.runs.reservations[t].generation))
  {
    hide JournalInv, ShapeOf;
  }

  // ---- Steering ----

  lemma {:induction false} CarriedKeeps(q: seq<Steer>, st: Steer)
    ensures st in CarriedSteers(q) <==> st in q && st.carries
  {
    if q != [] { CarriedKeeps(q[..|q| - 1], st); }
  }

  /** A completed model request of the generation bound to `i` claimed this steer, and its history holds the steer's turn. */
  predicate Consumed(s: State, x: ClaimStep, i: Id, st: Steer) {
    && x.DoCompleteModel? && x.token in s.tables.models
    && s.tables.models[x.token].lease.id == i && LeaseAt(s.runs.live, i) == Some(s.tables.models[x.token].lease)
    && st.entry in s.tables.models[x.token].entries && SteerProjection.Holds(x.history, st.entry)
  }

  lemma ReleasedSteers(a: map<Id, Live>, b: map<Id, Live>, i: Id, st: Steer)
    requires SteersReleased(a, b) && st in SteersAt(a, i)
    ensures st in SteersAt(b, i) || (!st.carries && LeaseAt(a, i).Some? && LeaseAt(b, i).None?)
  {
    hide LeaseAt;
    CarriedKeeps(SteersAt(a, i), st);
  }

  lemma CompleteModelSteers(s: State, t: Token, history: seq<SteerProjection.Turn>, i: Id, st: Steer)
    requires st in SteersAt(s.runs.live, i)
    ensures st in SteersAt(CompleteModel(s, t, history).runs.live, i) || Consumed(s, DoCompleteModel(t, history), i, st)
  {
    hide Fenced, Reclaimed, Unbind, BoundBy;
    if t in s.tables.models && i == s.tables.models[t].lease.id && i in s.runs.live {
      BoundByExactly(s, s.tables.models[t], history, st.entry);
      UnbindKeeps(s.runs.live[i].steers, BoundBy(s, s.tables.models[t], history), st);
    }
  }

  lemma CompleteSteerSteers(s: State, t: Token, i: Id, st: Steer)
    requires st in SteersAt(s.runs.live, i)
    ensures st in SteersAt(CompleteSteer(s, t).runs.live, i)
  {
    hide Admitted;
  }

  lemma ClaimSteers(s: State, x: ClaimStep, i: Id, st: Steer)
    requires st in SteersAt(s.runs.live, i)
    ensures st in SteersAt(NextClaim(s, x).runs.live, i) || Consumed(s, x, i, st)
  {
    hide BeginSteer, CompleteSteer, AbortSteer, BeginModel, CompleteModel, AbortModel, BeginWork, CommitWork, AbortWork, FinishWork,
         BeginQuiet, CompleteQuiet, BeginEnqueue, CompleteEnqueue, AbortEnqueue, AcquireWatch, CompleteWatch, SteersAt, Consumed;
    if x.DoCompleteModel? { CompleteModelSteers(s, x.token, x.history, i, st); }
    else if x.DoCompleteSteer? { CompleteSteerSteers(s, x.token, i, st); }
  }

  lemma StartSteers(s: State, x: StartStep)
    ensures var n := NextStart(s, x); SameSteers(s.runs.live, n.runs.live) || SteersReleased(s.runs.live, n.runs.live)
  {
    hide ReserveCreate, ReserveStart, ReserveAttention, ReserveOwedAttention, RegisterWaiter, ReleaseReservation, CommitStart, AttachRuntime,
         AttachIdleRuntime, BeginStartInput, CompleteStartInput, FailCommitted, SteersAt, SteersReleased;
  }

  lemma FinishSteers(s: State, x: FinishStep)
    ensures var n := NextFinish(s, x); SameSteers(s.runs.live, n.runs.live) || SteersReleased(s.runs.live, n.runs.live)
  {
    hide FinishGeneration, BeginFinalization, CompleteSettlement, FinishNoAction, PrepareNoAction, RequireRecovery, ReportQuiesced, AdmitReportWork,
         RecordNoAction, RecordTerminalSeen, SteersAt, SteersReleased;
  }

  lemma DeliverSteers(s: State, x: DeliverStep)
    ensures SameSteers(s.runs.live, NextDeliver(s, x).runs.live)
  {
    hide PostUpdate, PlanDelivery, BeginDelivery, CompleteDelivery, LeaveForRetry, HoldClaim, DropClaim, WithdrawWaiter, DropStoppedWaiter, AnswerWaiter,
         SteersAt;
  }

  lemma StopSteers(s: State, x: StopStep)
    requires !x.DoRestart?
    ensures var n := NextStop(s, x); SameSteers(s.runs.live, n.runs.live) || SteersReleased(s.runs.live, n.runs.live)
  {
    hide StopSubtree, RecoverStopped, CompleteStop, LoseRuntime, ForgetLost, BeginClosing, CloseResumability, CloseUnrestorable, OpenAttention,
         ForgetAttention, Restart, SteersAt, SteersReleased;
  }

  lemma FenceSteers(s: State, x: FenceStep)
    ensures SameSteers(s.runs.live, NextFence(s, x).runs.live)
  {
    hide BeginHandoff, EndHandoff, BeginRestore, EndRestore, HoldRestore, ReleaseHold, ClaimReclamation, ClaimIdleRelease, CompleteReclamation,
         AbortReclamation, SteersAt;
  }

  predicate Consumes(s: State, step: Step, i: Id, st: Steer) {
    step.ClaimsWork? && Consumed(s, step.claim, i, st)
  }

  predicate Conserved(s: State, step: Step, n: State, i: Id, st: Steer) {
    || st in SteersAt(n.runs.live, i)
    || Consumes(s, step, i, st)
    || (!st.carries && LeaseAt(s.runs.live, i).Some? && LeaseAt(n.runs.live, i).None?)
  }

  /** An admitted steer leaves only when a model request that claimed it completes over a history holding its turn,
      or, unless a covering stop lets it carry, when its own generation is released. */
  lemma SteersAreConserved(s: State, step: Step, i: Id, st: Steer)
    requires st in SteersAt(s.runs.live, i) && !Restarts(step)
    ensures Conserved(s, step, Next(s, step), i, st)
  {
    hide NextStart, NextFinish, NextClaim, NextDeliver, NextStop, NextFence, SteersAt, LeaseAt, Consumed, SteersReleased;
    var n := Next(s, step);
    match step {
      case Starts(x) => StartSteers(s, x);
      case Finishes(x) => FinishSteers(s, x);
      case ClaimsWork(x) => ClaimSteers(s, x, i, st);
      case Delivers(x) => DeliverSteers(s, x);
      case Stops(x) => StopSteers(s, x);
      case FencesOff(x) => FenceSteers(s, x);
    }
    if SteersReleased(s.runs.live, n.runs.live) { ReleasedSteers(s.runs.live, n.runs.live, i, st); }
  }

  /** No step of the run consumes the steer. */
  ghost predicate NeverConsumed(s: State, steps: seq<Step>, i: Id, st: Steer) {
    hide Run; forall k | 0 <= k < |steps| :: !Consumes(Run(s, steps[..k]), steps[k], i, st)
  }

  /** A carried steer outlives every release: over any run without a restart it is still there unless some model request consumed it. */
  lemma {:induction false} CarriedSteersSurvive(s: State, steps: seq<Step>, i: Id, st: Steer)
    requires st in SteersAt(s.runs.live, i) && st.carries && NoRestart(steps)
    requires NeverConsumed(s, steps, i, st)
    ensures st in SteersAt(Run(s, steps).runs.live, i)
  {
    hide Next, SteersAt, Consumes;
    if steps != [] {
      var init := steps[..|steps| - 1];
      forall k | 0 <= k < |init| ensures !Consumes(Run(s, init[..k]), init[k], i, st) {
        assert init[..k] == steps[..k] && init[k] == steps[k];
      }
      CarriedSteersSurvive(s, init, i, st);
      SteersAreConserved(Run(s, init), steps[|steps| - 1], i, st);
    }
  }

  // ---- A steer that does not carry belongs to the generation its delegate is bound to ----

  ghost predicate SteersBound(live: map<Id, Live>) {
    forall i, st | st in SteersAt(live, i) :: st.carries || LeaseAt(live, i).Some?
  }

  /** Steers go only with a lease, and no other lease is given up. */
  ghost predicate Steady(a: map<Id, Live>, b: map<Id, Live>) {
    SteersReleased(a, b) || (SameSteers(a, b) && forall i | LeaseAt(a, i).Some? :: LeaseAt(b, i).Some?)
  }

  lemma SteadyKeeps(a: map<Id, Live>, b: map<Id, Live>)
    requires SteersBound(a) && Steady(a, b)
    ensures SteersBound(b)
  {
    hide SteersAt, LeaseAt;
    forall i, st | st in SteersAt(b, i) ensures st.carries || LeaseAt(b, i).Some? {
      CarriedKeeps(SteersAt(a, i), st);
    }
  }

  lemma SameIsSteady(s: State, n: State)
    requires n.runs.live == s.runs.live
    ensures Steady(s.runs.live, n.runs.live)
  {
    hide SteersAt, LeaseAt, SteersReleased;
  }

  lemma KeptIsSteady(a: map<Id, Live>, b: map<Id, Live>)
    requires SameSteers(a, b) && SameLeases(a, b)
    ensures Steady(a, b)
  {
    hide SteersAt, LeaseAt, SteersReleased;
  }

  lemma StartSteady(s: State, x: StartStep)
    ensures Steady(s.runs.live, NextStart(s, x).runs.live)
  {
    hide ReserveCreate, ReserveStart, ReserveAttention, ReserveOwedAttention, RegisterWaiter, ReleaseReservation, CommitStart, AttachRuntime,
         AttachIdleRuntime, BeginStartInput, CompleteStartInput, FailCommitted, SteersAt, LeaseAt, SteersReleased, SameSteers, SameLeases;
    var n := NextStart(s, x);
    if x.DoCommitStart? { CommitSteady(s, x.token, x.cancelled, x.pending, x.storeOk); }
    else if x.DoAttachRuntime? || x.DoAttachIdleRuntime? || x.DoBeginStartInput? { KeptIsSteady(s.runs.live, n.runs.live); }
    else if !x.DoCompleteStartInput? && !x.DoFailCommitted? { SameIsSteady(s, n); }
  }

  lemma CommitSteady(s: State, t: Token, cancelled: bool, pending: set<nat>, storeOk: bool)
    ensures Steady(s.runs.live, CommitStart(s, t, cancelled, pending, storeOk).runs.live)
  {
    hide CommitRefused, StartEvents, AddChildEdge, UntrackStart, Append, WakesAfterStart, Moved, SteersAt, SteersReleased;
  }

  lemma FinishSteady(s: State, x: FinishStep)
    ensures Steady(s.runs.live, NextFinish(s, x).runs.live)
  {
    hide FinishGeneration, BeginFinalization, CompleteSettlement, FinishNoAction, PrepareNoAction, RequireRecovery, ReportQuiesced, AdmitReportWork,
         RecordNoAction, RecordTerminalSeen, LeaseAt, SteersAt, SteersReleased, SameSteers, SameLeases;
    var n := NextFinish(s, x);
    if x.DoBeginFinalization? { SameIsSteady(s, n); }
    else if !x.DoFinishGeneration? && !x.DoFinishNoAction? { KeptIsSteady(s.runs.live, n.runs.live); }
  }

  lemma DeliverSteady(s: State, x: DeliverStep)
    ensures Steady(s.runs.live, NextDeliver(s, x).runs.live)
  {
    hide PostUpdate, PlanDelivery, BeginDelivery, CompleteDelivery, LeaveForRetry, HoldClaim, DropClaim, WithdrawWaiter, DropStoppedWaiter, AnswerWaiter,
         LeaseAt, SteersAt, SteersReleased, SameSteers, SameLeases;
    var n := NextDeliver(s, x);
    if x.DoPlanDelivery? || x.DoWithdrawWaiter? || x.DoDropStoppedWaiter? { KeptIsSteady(s.runs.live, n.runs.live); } else { SameIsSteady(s, n); }
  }

  lemma StopSteady(s: State, x: StopStep)
    requires !x.DoRestart?
    ensures Steady(s.runs.live, NextStop(s, x).runs.live)
  {
    hide StopSubtree, RecoverStopped, CompleteStop, LoseRuntime, ForgetLost, BeginClosing, CloseResumability, CloseUnrestorable, OpenAttention,
         ForgetAttention, Restart, LeaseAt, SteersAt, SteersReleased, SameSteers;
    if !x.DoRecoverStopped? { SameIsSteady(s, NextStop(s, x)); }
  }

  lemma FenceSteady(s: State, x: FenceStep)
    ensures Steady(s.runs.live, NextFence(s, x).runs.live)
  {
    hide NextFence, LeaseAt, SteersAt, SteersReleased, SameSteers, SameLeases;
    FenceFrame(s, x);
    FenceSteers(s, x);
    KeptIsSteady(s.runs.live, NextFence(s, x).runs.live);
  }

  lemma SteerJoins(s: State, t: Token)
    requires SteersBound(s.runs.live)
    ensures SteersBound(CompleteSteer(s, t).runs.live)
  {
    hide Fenced, Reclaimed;
    var n := CompleteSteer(s, t);
    forall i, st | st in SteersAt(n.runs.live, i) ensures st.carries || LeaseAt(n.runs.live, i).Some? {
      assert LeaseAt(n.runs.live, i) == LeaseAt(s.runs.live, i);
    }
  }

  lemma RequestBinds(s: State, t: Token, history: seq<SteerProjection.Turn>)
    requires SteersBound(s.runs.live)
    ensures SteersBound(CompleteModel(s, t, history).runs.live)
  {
    hide Fenced, Reclaimed, Unbind, BoundBy;
    var n := CompleteModel(s, t, history);
    forall i, st | st in SteersAt(n.runs.live, i) ensures st.carries || LeaseAt(n.runs.live, i).Some? {
      assert LeaseAt(n.runs.live, i) == LeaseAt(s.runs.live, i);
      if t in s.tables.models && i == s.tables.models[t].lease.id && i in s.runs.live {
        UnbindKeeps(s.runs.live[i].steers, BoundBy(s, s.tables.models[t], history), st);
      }
    }
  }

  lemma ClaimBound(s: State, x: ClaimStep)
    requires SteersBound(s.runs.live)
    ensures SteersBound(NextClaim(s, x).runs.live)
  {
    hide BeginSteer, CompleteSteer, AbortSteer, BeginModel, CompleteModel, AbortModel, BeginWork, CommitWork, AbortWork, FinishWork,
         BeginQuiet, CompleteQuiet, BeginEnqueue, CompleteEnqueue, AbortEnqueue, AcquireWatch, CompleteWatch, SteersBound, Steady, SameSteers, SameLeases;
    var n := NextClaim(s, x);
    if x.DoCompleteSteer? { SteerJoins(s, x.token); }
    else if x.DoCompleteModel? { RequestBinds(s, x.token, x.history); }
    else if x.DoBeginQuiet? || x.DoCompleteQuiet? {
      KeptIsSteady(s.runs.live, n.runs.live);
      SteadyKeeps(s.runs.live, n.runs.live);
    }
  }

  lemma NoSteers(s: State, pending: map<Id, set<nat>>)
    ensures SteersBound(Restart(s, pending).runs.live) && forall i :: LeaseAt(Restart(s, pending).runs.live, i).None?
  {
    hide RestoredStop, OwedWakes, DerivedIndex;
  }

  lemma StepKeepsBound(s: State, step: Step)
    requires SteersBound(s.runs.live)
    ensures SteersBound(Next(s, step).runs.live)
  {
    hide NextStart, NextFinish, NextClaim, NextDeliver, NextStop, NextFence, SteersBound, Steady;
    var n := Next(s, step);
    match step
    case Starts(x) =>
      StartSteady(s, x);
      SteadyKeeps(s.runs.live, n.runs.live);
    case Finishes(x) =>
      FinishSteady(s, x);
      SteadyKeeps(s.runs.live, n.runs.live);
    case ClaimsWork(x) => ClaimBound(s, x);
    case Delivers(x) =>
      DeliverSteady(s, x);
      SteadyKeeps(s.runs.live, n.runs.live);
    case Stops(x) =>
      if x.DoRestart? { RestartBound(s, x); }
      else {
        StopSteady(s, x);
        SteadyKeeps(s.runs.live, n.runs.live);
      }
    case FencesOff(x) =>
      FenceSteady(s, x);
      SteadyKeeps(s.runs.live, n.runs.live);
  }

  lemma RestartBound(s: State, x: StopStep)
    requires x.DoRestart?
    ensures SteersBound(NextStop(s, x).runs.live) && forall i :: LeaseAt(NextStop(s, x).runs.live, i).None?
  {
    hide Restart, SteersBound;
    NoSteers(s, x.wakes);
  }

  lemma {:induction false} RunSteersBound(limits: Limits, steps: seq<Step>)
    ensures SteersBound(Run(Init(limits), steps).runs.live)
  {
    hide Next, SteersBound;
    if steps == [] {
      InitBound(limits);
    } else {
      RunSteersBound(limits, steps[..|steps| - 1]);
      StepKeepsBound(Run(Init(limits), steps[..|steps| - 1]), steps[|steps| - 1]);
    }
  }

  lemma InitBound(limits: Limits)
    ensures SteersBound(Init(limits).runs.live)
  {
  }

  // ---- One generation's steer, step by step ----

  /** `st` waits for the generation `l`, which is still bound. */
  predicate Pends(s: State, i: Id, l: Lease, st: Steer) {
    st in SteersAt(s.runs.live, i) && LeaseAt(s.runs.live, i) == Some(l)
  }

  lemma CommitKeepsLease(s: State, n: State, t: Token, i: Id)
    requires Inv(s) && Committed(s, n, t) && LeaseAt(s.runs.live, i).Some?
    ensures LeaseAt(n.runs.live, i) == LeaseAt(s.runs.live, i)
  {
    hide Inv, JournalInv, ShapeOf;
    var r := s.runs.reservations[t];
    BindingsHold(s);
    OpenedWasUnbound(s.runs.live, s.store.durable, n.store.durable, r, |s.store.journal| + 1);
    OpenedLeases(s.runs.live, n.runs.live, r, if r.id in s.runs.live then s.runs.live[r.id] else NO_LIVE);
  }

  lemma BindingsHold(s: State)
    requires Inv(s)
    ensures BindInv(s.runs.live, s.store.durable)
  {
    hide StopAlwaysWins, JournalInv, ResInv, SettleInv, IndexExact, TokInv, CapInv, TrackInv, StopShape, BindInv;
  }

  lemma SettledLease(s: State, n: State, i: Id)
    requires LeasesSettle(s.runs.live, n.runs.live)
    ensures LeaseAt(n.runs.live, i) == LeaseAt(s.runs.live, i) || LeaseAt(n.runs.live, i).None?
  {
    hide LeaseAt, EvidenceAt;
  }

  /** A lease is kept or given up, never exchanged. */
  lemma StepKeepsLease(s: State, step: Step, i: Id)
    requires Inv(s) && LeaseAt(s.runs.live, i).Some?
    ensures LeaseAt(Next(s, step).runs.live, i) == LeaseAt(s.runs.live, i) || LeaseAt(Next(s, step).runs.live, i).None?
  {
    hide Inv, JournalInv, CoreInv, NextStart, NextFinish, NextClaim, NextDeliver, NextStop, NextFence, LeasesSettle, Committed, LeaseAt;
    InvJournal(s);
    var n := Next(s, step);
    match step
    case Starts(x) =>
      StartSettles(s, x);
      if x.DoCommitStart? && Committed(s, n, x.token) { CommitKeepsLease(s, n, x.token, i); } else { SettledLease(s, n, i); }
    case Finishes(x) =>
      FinishSettles(s, x);
      SettledLease(s, n, i);
    case ClaimsWork(x) =>
      ClaimSettles(s, x);
      SettledLease(s, n, i);
    case Delivers(x) =>
      DeliverSettles(s, x);
      SettledLease(s, n, i);
    case Stops(x) =>
      StopSettles(s, x);
      SettledLease(s, n, i);
    case FencesOff(x) =>
      FenceSettles(s, x);
      SettledLease(s, n, i);
  }

  /** How a steer leaves: bound by a request of its own generation, or with that generation. */
  ghost predicate Departs(s: State, step: Step, n: State, i: Id, st: Steer) {
    Consumes(s, step, i, st) || LeaseAt(n.runs.live, i).None?
  }

  lemma StepKeepsSteer(s: State, step: Step, i: Id, l: Lease, st: Steer)
    requires Inv(s) && Pends(s, i, l, st)
    ensures Pends(Next(s, step), i, l, st) || Departs(s, step, Next(s, step), i, st)
  {
    hide Inv, Next, LeaseAt, SteersAt, Consumes;
    StepKeepsLease(s, step, i);
    if Restarts(step) { RestartEmpties(s, step, i); } else { SteersAreConserved(s, step, i, st); }
  }

  lemma RestartEmpties(s: State, step: Step, i: Id)
    requires Restarts(step)
    ensures LeaseAt(Next(s, step).runs.live, i).None?
  {
    hide NextStart, NextFinish, NextClaim, NextDeliver, NextStop, NextFence, LeaseAt;
    RestartBound(s, step.stop);
  }

  // ---- Every run ----

  /** Step `k` of the run is where the steer leaves, having waited until then. */
  ghost predicate LeavesAt(s: State, steps: seq<Step>, k: nat, i: Id, l: Lease, st: Steer) {
    hide Run, Next; k < |steps| && Pends(Run(s, steps[..k]), i, l, st) && Departs(Run(s, steps[..k]), steps[k], Next(Run(s, steps[..k]), steps[k]), i, st)
  }

  ghost predicate Waits(s: State, steps: seq<Step>, i: Id, l: Lease, st: Steer) {
    hide Run; Pends(Run(s, steps), i, l, st) || exists k: nat :: LeavesAt(s, steps, k, i, l, st)
  }

  /** Whatever runs, restarts included: a steer waits for its own generation until a model request of that generation binds it,
      its history holding the steer's turn, or that generation is released or lost. */
  lemma {:induction false} SteerWaitsForItsGeneration(s: State, steps: seq<Step>, i: Id, l: Lease, st: Steer)
    requires Inv(s) && Pends(s, i, l, st)
    ensures Waits(s, steps, i, l, st) && Inv(Run(s, steps))
  {
    hide Inv, Next, Pends, Departs, LeavesAt;
    if steps != [] {
      var init, last := steps[..|steps| - 1], |steps| - 1;
      SteerWaitsForItsGeneration(s, init, i, l, st);
      StepKeepsInv(Run(s, init), steps[last]);
      if Pends(Run(s, init), i, l, st) {
        StepKeepsSteer(Run(s, init), steps[last], i, l, st);
        assert steps == init + [steps[last]];
        if !Pends(Run(s, steps), i, l, st) { LeavesLast(s, init, steps[last], steps, last, i, l, st); }
      } else {
        var k: nat :| LeavesAt(s, init, k, i, l, st);
        assert steps == init + [steps[last]];
        LeavesEarlier(s, init, steps[last], steps, k, i, l, st);
      }
    }
  }

  lemma LeavesLast(s: State, init: seq<Step>, step: Step, steps: seq<Step>, k: nat, i: Id, l: Lease, st: Steer)
    requires steps == init + [step] && k == |init| && Pends(Run(s, init), i, l, st) && Departs(Run(s, init), step, Next(Run(s, init), step), i, st)
    ensures LeavesAt(s, steps, k, i, l, st)
  {
    hide Next, Run, Pends, Departs;
    assert steps[..|init|] == init;
  }

  lemma LeavesEarlier(s: State, init: seq<Step>, step: Step, steps: seq<Step>, k: nat, i: Id, l: Lease, st: Steer)
    requires steps == init + [step] && LeavesAt(s, init, k, i, l, st)
    ensures LeavesAt(s, steps, k, i, l, st)
  {
    hide Next, Run, Pends, Departs;
    assert steps[..k] == init[..k] && steps[k] == init[k];
  }

  /** In every reachable state each steer that does not carry waits for the generation its delegate is bound to. */
  ghost predicate SteersWait(s: State, more: seq<Step>) {
    hide Run, Waits; forall i, st | st in SteersAt(s.runs.live, i) && !st.carries ::
      LeaseAt(s.runs.live, i).Some? && Waits(s, more, i, LeaseAt(s.runs.live, i).value, st)
  }

  lemma SteersAreConservedInRuns(limits: Limits, steps: seq<Step>, more: seq<Step>)
    ensures SteersWait(Run(Init(limits), steps), more)
  {
    RunKeepsInv(limits, steps);
    RunSteersBound(limits, steps);
    hide Inv, Run, Waits, SteersAt, LeaseAt, Next;
    var s := Run(Init(limits), steps);
    forall i, st | st in SteersAt(s.runs.live, i) && !st.carries
      ensures LeaseAt(s.runs.live, i).Some? && Waits(s, more, i, LeaseAt(s.runs.live, i).value, st)
    {
      assert st.carries || LeaseAt(s.runs.live, i).Some?;
      SteerWaitsForItsGeneration(s, more, i, LeaseAt(s.runs.live, i).value, st);
    }
  }
}
