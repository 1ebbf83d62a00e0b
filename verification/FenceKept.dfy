/** Handoffs, restore windows and reclamation keep the core invariants. */
module FenceKept {
  import opened Types
  import opened Tree
  import opened State
  import opened Fences
  import opened Effects
  import opened Invariants

  lemma GuardStepTracks(s: State, n: State)
    requires TrackInv(s) && TokInv(s) && SameLeases(s.runs.live, n.runs.live) && s.nextToken <= n.nextToken
    requires n == s.(runs := s.runs.(live := n.runs.live), guards := n.guards, nextToken := n.nextToken)
    requires Minted(n.guards.reclamations.Keys, n.nextToken)
    ensures TrackInv(n) && TokInv(n)
  {
    hide ActiveIn, StartsIn, WorkIn, ReceiptsIn, QuietsIn, SteeringIn, ModelsIn, SettlementsIn, WatchesIn, SameLeases;
    if s.stop.Some? { SameActive(s.runs.live, n.runs.live, s.stop.value.members); }
  }

  lemma GuardStepKeepsCore(s: State, n: State)
    requires CoreInv(s) && SameLeases(s.runs.live, n.runs.live) && s.nextToken <= n.nextToken
    requires n == s.(runs := s.runs.(live := n.runs.live), guards := n.guards, nextToken := n.nextToken)
    requires Minted(n.guards.reclamations.Keys, n.nextToken)
    ensures CoreInv(n)
  {
    hide TrackInv, TokInv, JournalInv, BindInv, ResInv, StopShape, SettleInv, CapInv, IndexExact, SameLeases, Minted;
    GuardStepTracks(s, n);
    SameRunsReflexive(s.store.durable);
    SteadyStep(s, n);
  }

  lemma ArmMints(s: State, roots: set<Id>)
    requires Minted(s.guards.reclamations.Keys, s.nextToken)
    ensures Minted(Arm(s, roots).guards.reclamations.Keys, Arm(s, roots).nextToken)
  {
    hide EntriesOver, EntriesOf;
  }

  lemma FenceMints(s: State, x: FenceStep)
    requires Minted(s.guards.reclamations.Keys, s.nextToken)
    ensures var n := NextFence(s, x);
            Minted(n.guards.reclamations.Keys, n.nextToken) && SameLeases(s.runs.live, n.runs.live) && s.nextToken <= n.nextToken
            && n == s.(runs := s.runs.(live := n.runs.live), guards := n.guards, nextToken := n.nextToken)
  {
    hide BeginHandoff, EndHandoff, BeginRestore, EndRestore, HoldRestore, ReleaseHold, Arm, Selection, Candidate, Evicted, Unmarked;
    match x
    case DoClaimReclamation(k, roots) => ArmMints(s, roots);
    case DoClaimIdleRelease(id, k) => ArmMints(s, {id});
    case _ =>
  }

  lemma FenceKeepsCore(s: State, x: FenceStep)
    requires CoreInv(s)
    ensures CoreInv(NextFence(s, x))
  {
    hide NextFence, TrackInv, JournalInv, BindInv, ResInv, StopShape, SettleInv, CapInv, IndexExact, SameLeases, Minted;
    FenceMints(s, x);
    GuardStepKeepsCore(s, NextFence(s, x));
  }
}
