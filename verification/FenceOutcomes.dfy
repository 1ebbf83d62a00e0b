/** What handoffs, restore windows, holds and reclamations leave behind, operation by operation. */
module FenceOutcomes {
  import opened Types
  import opened Tree
  import opened State
  import opened Fences
  import opened Reclaim

  // ---- Handoffs and windows ----

  /** Nothing of the delegate runs, starts, is stopped, restored or held. */
  predicate AtRest(s: State, i: Id) {
    && (i in s.store.durable ==> !s.store.durable[i].open && s.store.durable[i].pendingStop == 0 && (s.store.durable[i].phase == Idle || s.store.durable[i].phase == Closed))
    && (forall t | t in s.runs.reservations :: s.runs.reservations[t].id != i && (s.runs.reservations[t].create && s.runs.reservations[t].parent != NO_ID ==> s.runs.reservations[t].parent != i))
    && Count(s.guards.laneRestores, i) == 0 && Count(s.guards.holds, i) == 0
  }

  /** A handoff is taken exactly over a subtree at rest that no other handoff touches, above or below. */
  lemma HandoffBegun(s: State, id: Id)
    ensures var n, members := BeginHandoff(s, id), Subtree(ShapeOf(s.store.durable), id);
            if id != NO_ID && !s.closing && (forall r | r in s.guards.laneHandoffs :: !Under(ShapeOf(s.store.durable), id, r) && r !in members)
               && (forall i | i in members :: AtRest(s, i))
            then n.guards.laneHandoffs == s.guards.laneHandoffs + {id} else n == s
  {
    hide Under, Subtree, ShapeOf;
    var members := Subtree(ShapeOf(s.store.durable), id);
    if SubtreeBusy(s, members) {
      assert exists i | i in members :: !AtRest(s, i) by { BusyIsNotAtRest(s, members); }
    }
  }

  lemma BusyIsNotAtRest(s: State, members: set<Id>)
    requires SubtreeBusy(s, members)
    ensures exists i | i in members :: !AtRest(s, i)
  {
    if i :| i in members && i in s.store.durable && (s.store.durable[i].open || s.store.durable[i].pendingStop != 0 || s.store.durable[i].phase in {Running, Settling, Stopping}) {
      assert !AtRest(s, i);
    } else if t :| t in s.runs.reservations && s.runs.reservations[t].id in members {
      assert !AtRest(s, s.runs.reservations[t].id);
    } else if t :| t in s.runs.reservations && s.runs.reservations[t].create && s.runs.reservations[t].parent != NO_ID && s.runs.reservations[t].parent in members {
      assert !AtRest(s, s.runs.reservations[t].parent);
    } else {
      var i :| i in members && (Count(s.guards.laneRestores, i) > 0 || Count(s.guards.holds, i) > 0);
      assert !AtRest(s, i);
    }
  }

  lemma HandoffEnded(s: State, id: Id)
    ensures EndHandoff(s, id).guards.laneHandoffs == s.guards.laneHandoffs - {id}
  {
  }

  /** One count moves by one, never below zero, and no other moves. */
  ghost predicate Counts(a: map<Id, nat>, b: map<Id, nat>, id: Id, up: bool) {
    forall i :: Count(b, i) == if i != id then Count(a, i) else if up then Count(a, i) + 1 else if Count(a, i) > 0 then Count(a, i) - 1 else 0
  }

  /** Restore windows and holds nest: each taken one is given back once. */
  lemma WindowsNest(s: State, id: Id)
    ensures if id != NO_ID && !s.closing && !LaneCovers(s, id) then Counts(s.guards.laneRestores, BeginRestore(s, id).guards.laneRestores, id, true) else BeginRestore(s, id) == s
    ensures Counts(s.guards.laneRestores, EndRestore(s, id).guards.laneRestores, id, false)
    ensures Counts(s.guards.holds, HoldRestore(s, id).guards.holds, id, true)
    ensures Counts(s.guards.holds, ReleaseHold(s, id).guards.holds, id, false)
  {
    hide LaneCovers;
  }

  // ---- Reclamation ----

  /** What a claim takes: a fresh token over exactly the resident runtimes beneath its roots. */
  ghost predicate Armed(s: State, n: State, roots: set<Id>) {
    && n.nextToken == s.nextToken + 1 && n.runs == s.runs
    && n.guards.reclamations.Keys == s.guards.reclamations.Keys + {n.nextToken}
    && (forall t | t in s.guards.reclamations && t != n.nextToken :: n.guards.reclamations[t] == s.guards.reclamations[t])
    && var c := n.guards.reclamations[n.nextToken];
    && c.roots == roots
    && (forall i :: i in c.entries <==> i in s.runs.live && s.runs.live[i].runtime != 0 && exists r | r in roots :: i in Subtree(ShapeOf(s.store.durable), r))
    && (forall i | i in c.entries :: i in s.runs.live && c.entries[i] == s.runs.live[i].runtime)
    && n.guards.reclaiming.Keys == s.guards.reclaiming.Keys + c.entries.Keys
    && (forall i | i in n.guards.reclaiming :: n.guards.reclaiming[i] == if i in c.entries then n.nextToken else if i in s.guards.reclaiming then s.guards.reclaiming[i] else 0)
  }

  lemma ArmTakes(s: State, roots: set<Id>)
    ensures Armed(s, Arm(s, roots), roots)
  {
    hide Subtree, ShapeOf;
    forall i ensures i in EntriesOver(s, roots) <==> i in s.runs.live && s.runs.live[i].runtime != 0 && exists r | r in roots :: i in Subtree(ShapeOf(s.store.durable), r) {
      if i in EntriesOver(s, roots) {
        var r :| r in roots && i in EntriesOf(s, r);
        assert i in Subtree(ShapeOf(s.store.durable), r);
      } else if i in s.runs.live && s.runs.live[i].runtime != 0 {
        forall r | r in roots ensures i !in Subtree(ShapeOf(s.store.durable), r) { assert i !in EntriesOf(s, r); }
      }
    }
  }

  /** Room is claimed for runtimes that need it while the tree is open; an idle runtime is released when its own subtree is claimable, nobody
      holds it and nobody shares its task store. */
  lemma ClaimsTaken(s: State, required: nat, roots: set<Id>, id: Id, sharesStore: bool)
    ensures var n := ClaimReclamation(s, required, roots); if required > 0 && !s.closing && Selection(s, required, roots) then Armed(s, n, roots) else n == s
    ensures var n := ClaimIdleRelease(s, id, sharesStore);
            if !s.closing && !sharesStore && Count(s.guards.holds, id) == 0 && Candidate(s, id) then Armed(s, n, {id}) else n == s
  {
    ArmTakes(s, roots);
    ArmTakes(s, {id});
    hide Selection, Candidate, Armed, Arm;
  }

  /** The runtime `i` lost to a completed reclamation: an entry of the claim, reported closed under exactly the runtime claimed, unbound, and
      still installed. */
  predicate Evictable(s: State, t: Token, closed: map<Id, Runtime>, i: Id) {
    && t in s.guards.reclamations && i in s.guards.reclamations[t].entries && i in closed && closed[i] == s.guards.reclamations[t].entries[i]
    && i in s.runs.live && s.runs.live[i].binding.None? && s.runs.live[i].runtime == closed[i]
  }

  /** The claim and its own marks are gone, and no other. */
  predicate ClaimGone(s: State, n: State, t: Token) {
    && n.guards.reclamations == s.guards.reclamations - {t} && n.guards.reclaiming.Keys <= s.guards.reclaiming.Keys
    && (forall i | i in n.guards.reclaiming :: n.guards.reclaiming[i] == s.guards.reclaiming[i])
    && forall i | i in s.guards.reclaiming ::
         i !in n.guards.reclaiming <==> t in s.guards.reclamations && s.guards.reclaiming[i] == t && i in s.guards.reclamations[t].entries
  }

  /** Completing a reclamation clears exactly the runtimes it closed: a runtime left open, bound again or replaced stays. */
  lemma ReclamationEvicts(s: State, t: Token, closed: map<Id, Runtime>)
    ensures var n := CompleteReclamation(s, t, closed);
            && ClaimGone(s, n, t) && n.runs.live.Keys == s.runs.live.Keys
            && forall i | i in s.runs.live :: n.runs.live[i] == if Evictable(s, t, closed, i) then s.runs.live[i].(runtime := 0) else s.runs.live[i]
  {
    hide SameSteers, EvidenceGrows, SameWaiters, SameLeases;
    if t !in s.guards.reclamations { assert s.guards.reclamations - {t} == s.guards.reclamations; }
  }

  /** Aborting gives the marks back and touches no runtime. */
  lemma ReclamationAborted(s: State, t: Token)
    ensures var n := AbortReclamation(s, t); ClaimGone(s, n, t) && n.runs == s.runs
  {
    if t !in s.guards.reclamations { assert s.guards.reclamations - {t} == s.guards.reclamations; }
  }

  /** Every entry of the claim was closed under the runtime it was claimed with. */
  predicate FullyClosed(s: State, t: Token, closed: map<Id, Runtime>) {
    t in s.guards.reclamations && forall i | i in s.guards.reclamations[t].entries :: i in closed && closed[i] == s.guards.reclamations[t].entries[i]
  }

  /** None of the claim's runtimes was bound or replaced meanwhile. */
  predicate Undisturbed(s: State, t: Token) {
    t in s.guards.reclamations && forall i | i in s.guards.reclamations[t].entries ::
      i in s.runs.live && s.runs.live[i].binding.None? && s.runs.live[i].runtime == s.guards.reclamations[t].entries[i]
  }

  /** After a full close of an undisturbed claim its runtimes are gone, so giving the marks back frees no slot again: what is resident,
      terminal and unsettled is exactly what it was. */
  lemma FullCloseKeepsBound(s: State, t: Token, closed: map<Id, Runtime>)
    requires ReclInv(s.guards, s.store.durable) && FullyClosed(s, t, closed) && Undisturbed(s, t)
    ensures var n := CompleteReclamation(s, t, closed);
            && (forall i | i in s.guards.reclamations[t].entries :: i in n.runs.live && n.runs.live[i].runtime == 0)
            && Unsettled(n) == Unsettled(s)
  {
    ReclamationEvicts(s, t, closed);
    var n := CompleteReclamation(s, t, closed);
    hide CompleteReclamation, TerminalIdle, RootsOk;
    forall i | i in s.store.durable ensures i in Unsettled(n) <==> i in Unsettled(s) {
      if i in s.guards.reclamations[t].entries { assert s.guards.reclaiming[i] == t; }
    }
  }

  /** So a claim granted for the required runtimes and fully closed leaves room for them. */
  lemma ClosedClaimLeavesRoom(s: State, required: nat, roots: set<Id>, closed: map<Id, Runtime>)
    requires Selection(s, required, roots) && ReclInv(Arm(s, roots).guards, s.store.durable)
    requires var a := Arm(s, roots); FullyClosed(a, a.nextToken, closed) && Undisturbed(a, a.nextToken)
    ensures var a := Arm(s, roots); |Unsettled(CompleteReclamation(a, a.nextToken, closed))| + required <= s.limits.retained
  {
    hide Selection, Unsettled, CompleteReclamation, Arm, FullyClosed, Undisturbed, ReclInv;
    ArmedClaimFits(s, required, roots);
    FullCloseKeepsBound(Arm(s, roots), Arm(s, roots).nextToken, closed);
  }

  // ---- Who may be reclaimed ----

  /** A delegate's runtime may go: ended, unbound, unheld, out of recovery, with no steer or waiter or quiet write of its own left. */
  lemma QuietExactly(s: State, i: Id)
    ensures MemberQuiet(s, i) <==>
            && i in s.store.durable && s.store.durable[i].outcome.Some? && !s.store.durable[i].open && s.store.durable[i].phase in {Idle, Closed}
            && Count(s.guards.holds, i) == 0 && LeaseAt(s.runs.live, i).None?
            && (forall st | st in SteersAt(s.runs.live, i) :: st.carries) && WaitersAt(s.runs.live, i) == map[]
            && (i in s.runs.live ==> !s.runs.live[i].recovery && !s.runs.live[i].finalRecovery && !s.runs.live[i].runnerPending && s.runs.live[i].quiet == 0)
  {
    if i in s.runs.live && OwesSteering(s.runs.live[i].steers) {
      var k :| 0 <= k < |s.runs.live[i].steers| && !s.runs.live[i].steers[k].carries;
      assert s.runs.live[i].steers[k] in SteersAt(s.runs.live, i);
    }
  }

  lemma ResidentExactly(s: State, i: Id)
    ensures ResidentTerminal(s, i) <==>
            && i in s.store.durable && s.store.durable[i].outcome.Some? && !s.store.durable[i].open && s.store.durable[i].phase in {Idle, Closed}
            && Count(s.guards.holds, i) == 0 && i in s.runs.live && LeaseAt(s.runs.live, i).None? && s.runs.live[i].runtime != 0
  {
  }

  /** No run being started or worked on, and no claim on its turn, is a member's. */
  predicate RunsFree(s: State, members: set<Id>) {
    && (forall t | t in s.runs.reservations :: s.runs.reservations[t].id !in members) && (forall t | t in s.runs.inputs :: s.runs.inputs[t].id !in members)
    && (forall t | t in s.tables.steering :: s.tables.steering[t].lease.id !in members) && (forall t | t in s.tables.models :: s.tables.models[t].lease.id !in members)
    && (forall t | t in s.tables.settlements :: s.tables.settlements[t].lease.id !in members) && (forall t | t in s.tables.work :: s.tables.work[t].owner.id !in members)
    && (forall t | t in s.tables.quiets :: s.tables.quiets[t].id !in members) && (forall l | l in s.runs.lost :: l.id !in members)
  }

  /** Nothing under way is addressed to a member or comes from one. */
  predicate PostFree(s: State, members: set<Id>) {
    && (forall t | t in s.post.receipts :: s.post.receipts[t].delegate !in members && s.post.receipts[t].owner !in members)
    && (forall k | k in s.post.claims && s.post.claims[k] in s.post.parcels ::
          s.post.parcels[s.post.claims[k]].delegate !in members && s.post.parcels[s.post.claims[k]].owner !in members)
    && (forall t | t in s.tables.enqueues :: s.tables.enqueues[t].source !in members && s.tables.enqueues[t].receiver !in members)
    && (forall t | t in s.tables.deliveries :: s.tables.deliveries[t].source !in members && s.tables.deliveries[t].receiver !in members)
  }

  lemma RunsFreeExactly(s: State, members: set<Id>)
    ensures RunsFree(s, members) <==>
            && StartsIn(s.runs.reservations, members) == {} && (forall t | t in s.runs.inputs :: s.runs.inputs[t].id !in members)
            && SteeringIn(s.tables.steering, members) == {} && ModelsIn(s.tables.models, members) == {} && SettlementsIn(s.tables.settlements, members) == {}
            && WorkIn(s.tables.work, members) == {} && QuietsIn(s.tables.quiets, members) == {} && (forall l | l in s.runs.lost :: l.id !in members)
  {
    assert forall t :: t in StartsIn(s.runs.reservations, members) <==> t in s.runs.reservations && s.runs.reservations[t].id in members;
    assert forall t :: t in SteeringIn(s.tables.steering, members) <==> t in s.tables.steering && s.tables.steering[t].lease.id in members;
    assert forall t :: t in ModelsIn(s.tables.models, members) <==> t in s.tables.models && s.tables.models[t].lease.id in members;
    assert forall t :: t in SettlementsIn(s.tables.settlements, members) <==> t in s.tables.settlements && s.tables.settlements[t].lease.id in members;
    assert forall t :: t in WorkIn(s.tables.work, members) <==> t in s.tables.work && s.tables.work[t].owner.id in members;
    assert forall t :: t in QuietsIn(s.tables.quiets, members) <==> t in s.tables.quiets && s.tables.quiets[t].id in members;
    hide StartsIn, SteeringIn, ModelsIn, SettlementsIn, WorkIn, QuietsIn;
  }

  lemma PostFreeExactly(s: State, members: set<Id>)
    ensures PostFree(s, members) <==>
            && ReceiptsIn(s.post.receipts, members) == {} && ClaimsIn(s.post.claims, s.post.parcels, members) == {}
            && WatchesIn(s.tables.enqueues, members) == {} && WatchesIn(s.tables.deliveries, members) == {}
  {
    assert forall t :: t in ReceiptsIn(s.post.receipts, members) <==>
      t in s.post.receipts && (s.post.receipts[t].delegate in members || s.post.receipts[t].owner in members);
    assert forall k :: k in ClaimsIn(s.post.claims, s.post.parcels, members) <==>
      k in s.post.claims && s.post.claims[k] in s.post.parcels
      && (s.post.parcels[s.post.claims[k]].delegate in members || s.post.parcels[s.post.claims[k]].owner in members);
    assert forall t :: t in WatchesIn(s.tables.enqueues, members) <==>
      t in s.tables.enqueues && (s.tables.enqueues[t].source in members || s.tables.enqueues[t].receiver in members);
    assert forall t :: t in WatchesIn(s.tables.deliveries, members) <==>
      t in s.tables.deliveries && (s.tables.deliveries[t].source in members || s.tables.deliveries[t].receiver in members);
    hide ReceiptsIn, ClaimsIn, WatchesIn;
  }

  /** No process-local work touches the members. */
  lemma WorkFreeExactly(s: State, members: set<Id>)
    ensures !ProcessWork(s, members) <==>
            && (forall i | i in members :: (s.stop.Some? ==> i !in s.stop.value.members) && i !in s.guards.reclaiming)
            && RunsFree(s, members) && PostFree(s, members)
  {
    RunsFreeExactly(s, members);
    PostFreeExactly(s, members);
    hide RunsFree, PostFree, StartsIn, SteeringIn, ModelsIn, SettlementsIn, WorkIn, QuietsIn, ReceiptsIn, ClaimsIn, WatchesIn;
  }

  /** A candidate holds a runtime of its own, its whole subtree is quiet, and no work touches it. */
  lemma CandidateExactly(s: State, id: Id)
    ensures var members := Subtree(ShapeOf(s.store.durable), id);
            Candidate(s, id) <==> ResidentTerminal(s, id) && !ProcessWork(s, members) && forall i | i in members :: MemberQuiet(s, i)
  {
    hide ProcessWork, MemberQuiet;
    if ResidentTerminal(s, id) { assert id in EntriesOf(s, id); }
  }
}
