/** Runtime reclamation: what a claim takes, that it is enough, and that claims never overlap. */
module Reclaim {
  import opened Types
  import opened Tree
  import opened JournalLaws
  import opened State
  import opened Fences
  import opened Effects
  import opened Invariants

  // ---- The marks ----

  /** A mark names the claim whose entry it is, and every entry of a claim is marked. */
  ghost predicate MarksOk(g: Guards) {
    && (forall i | i in g.reclaiming :: g.reclaiming[i] in g.reclamations && i in g.reclamations[g.reclaiming[i]].entries)
    && (forall t, i | t in g.reclamations && i in g.reclamations[t].entries :: i in g.reclaiming && g.reclaiming[i] == t)
  }

  /** A claim's roots are pairwise unrelated, and each entry lies beneath one of them. */
  ghost predicate RootsOk(d: Durable, c: Reclamation) {
    && c.roots <= d.Keys && Antichain(c.roots, d)
    && forall i | i in c.entries :: i in d && exists r | r in c.roots :: Under(ShapeOf(d), i, r)
  }

  ghost predicate ReclInv(g: Guards, d: Durable) {
    MarksOk(g) && forall t | t in g.reclamations :: RootsOk(d, g.reclamations[t])
  }

  lemma ClaimsAreDisjoint(g: Guards, d: Durable, t: Token, u: Token)
    requires ReclInv(g, d) && t in g.reclamations && u in g.reclamations && t != u
    ensures g.reclamations[t].entries.Keys !! g.reclamations[u].entries.Keys
  {
    hide RootsOk;
    forall i | i in g.reclamations[t].entries ensures i !in g.reclamations[u].entries {
      assert g.reclaiming[i] == t;
    }
  }

  // ---- Arming ----

  /** The claimable subtrees below no claimable subtree are unrelated. */
  lemma RootsAreUnrelated(s: State)
    ensures Antichain(Roots(s), s.store.durable) && Roots(s) <= s.store.durable.Keys
  {
    hide Candidate, Under, ShapeOf;
  }

  lemma EntriesAreUnder(s: State, roots: set<Id>, i: Id)
    requires i in EntriesOver(s, roots) && roots <= s.store.durable.Keys
    ensures i in s.store.durable && i in s.runs.live && s.runs.live[i].runtime != 0
    ensures exists r | r in roots :: i in EntriesOf(s, r) && Under(ShapeOf(s.store.durable), i, r)
  {
    var r :| r in roots && i in EntriesOf(s, r);
  }

  /** Every entry of a candidate is resident, terminal and unclaimed. */
  lemma EntriesAreUnsettled(s: State, roots: set<Id>, i: Id)
    requires (forall r | r in roots :: r in s.store.durable && Candidate(s, r)) && i in EntriesOver(s, roots)
    ensures i in Unsettled(s)
  {
    EntriesAreUnder(s, roots, i);
    var r :| r in roots && i in EntriesOf(s, r) && Under(ShapeOf(s.store.durable), i, r);
    assert Candidate(s, r);
    hide Under, ShapeOf, StartsIn, SteeringIn, ModelsIn, SettlementsIn, WorkIn, ReceiptsIn, ClaimsIn, QuietsIn, WatchesIn;
    assert MemberQuiet(s, i);
  }

  lemma EntriesUnclaimed(s: State, roots: set<Id>)
    requires forall r | r in roots :: r in s.store.durable && Candidate(s, r)
    ensures EntriesOver(s, roots) <= Unsettled(s) && EntriesOver(s, roots) !! s.guards.reclaiming.Keys
  {
    hide Candidate, EntriesOver;
    forall i | i in EntriesOver(s, roots) ensures i in Unsettled(s) && i !in s.guards.reclaiming {
      EntriesAreUnsettled(s, roots, i);
      UnsettledIsUnmarked(s, i);
    }
  }

  lemma UnsettledIsUnmarked(s: State, i: Id)
    requires i in Unsettled(s)
    ensures i !in s.guards.reclaiming
  {
  }

  lemma ArmedMarks(s: State, roots: set<Id>)
    requires MarksOk(s.guards) && EntriesOver(s, roots) !! s.guards.reclaiming.Keys && Minted(s.guards.reclamations.Keys, s.nextToken)
    ensures MarksOk(Arm(s, roots).guards)
  {
    hide EntriesOver;
    assert s.nextToken + 1 !in s.guards.reclamations;
  }

  lemma ArmKeeps(s: State, roots: set<Id>)
    requires ReclInv(s.guards, s.store.durable) && Minted(s.guards.reclamations.Keys, s.nextToken)
    requires forall r | r in roots :: r in s.store.durable && Candidate(s, r)
    requires Antichain(roots, s.store.durable)
    ensures ReclInv(Arm(s, roots).guards, s.store.durable)
  {
    hide EntriesOver, Candidate, MarksOk, Antichain, Minted;
    EntriesUnclaimed(s, roots);
    ArmedMarks(s, roots);
    forall i | i in EntriesOver(s, roots) ensures i in s.store.durable && exists r | r in roots :: Under(ShapeOf(s.store.durable), i, r) {
      EntriesAreUnder(s, roots, i);
    }
  }

  // ---- The bound ----

  lemma ArmedUnsettled(s: State, roots: set<Id>)
    ensures Unsettled(Arm(s, roots)) == Unsettled(s) - EntriesOver(s, roots)
  {
    hide EntriesOver, TerminalIdle;
  }

  lemma SubsetCard(a: set<Id>, b: set<Id>)
    requires b <= a
    ensures |a - b| == |a| - |b|
  {
    assert (a - b) + b == a;
  }

  /** Once a claim is armed, what no claim is settling plus the required slots fits the limit. */
  lemma ArmedClaimFits(s: State, required: nat, roots: set<Id>)
    requires Selection(s, required, roots)
    ensures |Unsettled(Arm(s, roots))| + required <= s.limits.retained
  {
    hide Candidate, EntriesOver, SpentBefore;
    assert forall r | r in roots :: r in Roots(s);
    EntriesUnclaimed(s, roots);
    ArmedUnsettled(s, roots);
    SubsetCard(Unsettled(s), EntriesOver(s, roots));
  }

  /** Above every candidate there is one with no candidate above it. */
  lemma {:induction false} RootAbove(s: State, i: Id)
    requires i in s.store.durable && Candidate(s, i)
    ensures exists r :: r in Roots(s) && Under(ShapeOf(s.store.durable), i, r)
    decreases s.store.durable[i].born
  {
    var t := ShapeOf(s.store.durable);
    hide Candidate;
    if i in Roots(s) {
      assert Under(t, i, i);
    } else {
      var j :| j in s.store.durable && j != i && Under(t, i, j) && Candidate(s, j);
      UnderIsNotOlder(t, i, j);
      RootAbove(s, j);
      var r :| r in Roots(s) && Under(t, j, r);
      UnderTransitive(t, i, j, r);
    }
  }

  /** The roots together hold everything any claimable subtree could give. */
  lemma RootsHoldAll(s: State, i: Id)
    requires i in s.store.durable && Candidate(s, i)
    ensures EntriesOf(s, i) <= EntriesOver(s, Roots(s))
  {
    RootAbove(s, i);
    var r :| r in Roots(s) && Under(ShapeOf(s.store.durable), i, r);
    hide Candidate, Roots;
    forall e | e in EntriesOf(s, i) ensures e in EntriesOver(s, Roots(s)) {
      InSubtree(s.store.durable, e, i);
      UnderTransitive(ShapeOf(s.store.durable), e, i, r);
      InSubtree(s.store.durable, e, r);
      hide Under, ShapeOf, Subtree;
      assert e in EntriesOf(s, r);
    }
  }

  /** No claim can be selected exactly when all claimable subtrees together fall short. */
  lemma ShortfallMeansAll(s: State, required: nat, roots: set<Id>)
    requires |EntriesOver(s, Roots(s))| < Needed(s, required)
    ensures !Selection(s, required, roots)
  {
    hide Candidate, Roots, SpentBefore, EntriesOf, Unsettled;
    if roots <= Roots(s) {
      assert EntriesOver(s, roots) <= EntriesOver(s, Roots(s));
      CardMonotone(EntriesOver(s, roots), EntriesOver(s, Roots(s)));
    }
  }

  lemma CardMonotone(a: set<Id>, b: set<Id>)
    requires a <= b
    ensures |a| <= |b|
  {
    assert b == a + (b - a);
  }

  /** Unrelated roots share no entry. */
  lemma EntriesDoNotOverlap(s: State, r: Id, q: Id)
    requires r != q && r in s.store.durable && q in s.store.durable
    requires !Under(ShapeOf(s.store.durable), r, q) && !Under(ShapeOf(s.store.durable), q, r)
    ensures EntriesOf(s, r) !! EntriesOf(s, q)
  {
    forall i | i in EntriesOf(s, r) ensures i !in EntriesOf(s, q) {
      InSubtree(s.store.durable, i, r);
      InSubtree(s.store.durable, i, q);
      if Under(ShapeOf(s.store.durable), i, q) { AncestorsComparable(ShapeOf(s.store.durable), i, r, q); }
    }
  }

  // ---- Other steps ----

  lemma ReleaseKeeps(g: Guards, t: Token, d: Durable)
    requires ReclInv(g, d) && t in g.reclamations
    ensures ReclInv(g.(reclamations := g.reclamations - {t}, reclaiming := Unmarked(g.reclaiming, t, g.reclamations[t].entries)), d)
  {
    hide RootsOk;
  }

  lemma CalmRecl(g: Guards, d: Durable, d': Durable)
    requires ReclInv(g, d) && Calmer(d, d')
    ensures ReclInv(g, d')
  {
    hide MarksOk, Under;
    forall t | t in g.reclamations ensures RootsOk(d', g.reclamations[t]) {
      assert RootsOk(d, g.reclamations[t]);
    }
  }

  lemma GrownRecl(g: Guards, d: Durable, d': Durable, n: nat, r: Reservation)
    requires ReclInv(g, d) && WellFormed(d, n) && RunOpened(d, d', r, n + 1)
    ensures ReclInv(g, d')
  {
    hide MarksOk, WellFormed;
    forall t | t in g.reclamations ensures RootsOk(d', g.reclamations[t]) {
      var c := g.reclamations[t];
      assert RootsOk(d, c);
      forall i, q | i in d ensures Under(ShapeOf(d'), i, q) <==> Under(ShapeOf(d), i, q) { OldChains(d, d', n, r, i, q); }
      hide ShapeOf, Under;
      forall i | i in c.entries ensures i in d' && exists q | q in c.roots :: Under(ShapeOf(d'), i, q) {
        var q :| q in c.roots && Under(ShapeOf(d), i, q);
        assert Under(ShapeOf(d'), i, q);
      }
    }
  }

  lemma OldChains(d: Durable, d': Durable, n: nat, r: Reservation, i: Id, q: Id)
    requires WellFormed(d, n) && RunOpened(d, d', r, n + 1) && i in d
    ensures Under(ShapeOf(d'), i, q) <==> Under(ShapeOf(d), i, q)
  {
    if r.create { GrowthKeepsChains(ShapeOf(d), r.id, Node(r.parent, n + 1), i, q); }
  }

  lemma SelectedRoots(s: State, required: nat, roots: set<Id>)
    requires Selection(s, required, roots)
    ensures Antichain(roots, s.store.durable) && forall r | r in roots :: r in s.store.durable && Candidate(s, r)
  {
    RootsAreUnrelated(s);
    hide Under, ShapeOf, SpentBefore, EntriesOver;
    assert forall r | r in roots :: r in Roots(s);
    hide Candidate;
  }

  lemma FenceRecl(s: State, x: FenceStep)
    requires ReclInv(s.guards, s.store.durable) && Minted(s.guards.reclamations.Keys, s.nextToken)
    ensures ReclInv(NextFence(s, x).guards, s.store.durable)
  {
    hide Minted, Arm, Selection, BeginHandoff, EndHandoff, BeginRestore, EndRestore, HoldRestore, ReleaseHold, Unmarked, Evicted, Antichain;
    match x
    case DoClaimReclamation(k, roots) =>
      if Selection(s, k, roots) {
        SelectedRoots(s, k, roots);
        hide ReclInv, Candidate;
        ArmKeeps(s, roots);
      }
    case DoClaimIdleRelease(id, shares) =>
      if Candidate(s, id) {
        IdleRoot(s, id);
        hide ReclInv, Candidate;
        ArmKeeps(s, {id});
      }
    case DoCompleteReclamation(t, c) =>
      hide ReclInv;
      if t in s.guards.reclamations { ReleaseKeeps(s.guards, t, s.store.durable); }
    case DoAbortReclamation(t) =>
      hide ReclInv;
      if t in s.guards.reclamations { ReleaseKeeps(s.guards, t, s.store.durable); }
    case _ => HandoffsAside(s, NextFence(s, x));
  }

  lemma IdleRoot(s: State, id: Id)
    requires Candidate(s, id)
    ensures id in s.store.durable && Antichain({id}, s.store.durable)
  {
  }

  lemma HandoffsAside(s: State, n: State)
    requires ReclInv(s.guards, s.store.durable) && n.guards.reclaiming == s.guards.reclaiming && n.guards.reclamations == s.guards.reclamations
    ensures ReclInv(n.guards, s.store.durable)
  {
    hide RootsOk;
  }
}
