/** Choosing the runtimes a capacity claim reclaims: candidates, their roots, the spending order and the shortest sufficient prefix. */
module Selecting {
  import opened Types
  import opened Tree
  import opened State
  import opened Fences
  import opened Reclaim

  // ---- Candidates ----

  method CountUnsettled(s: State) returns (n: nat)
    ensures n == |Unsettled(s)|
  {
    n := 0;
    ghost var seen: set<Id> := {};
    var todo := s.store.durable.Keys;
    while todo != {}
      invariant todo <= s.store.durable.Keys && seen == set i | i in Unsettled(s) && i !in todo
      invariant n == |seen|
    {
      var i :| i in todo;
      todo := todo - {i};
      if ResidentTerminal(s, i) && i !in s.guards.reclaiming {
        seen := seen + {i};
        n := n + 1;
      }
    }
    assert seen == Unsettled(s);
  }

  /** A subtree with no process work whose every member is quiet; its entries are the resident members. */
  method Claimable(s: State, root: Id) returns (ok: bool, entries: set<Id>)
    requires WellFounded(ShapeOf(s.store.durable)) && IndexExact(s.store.children, ShapeOf(s.store.durable)) && root != NO_ID
    ensures ok == ClaimableSubtree(s, root) && (ok ==> entries == EntriesOf(s, root))
  {
    hide ProcessWork, Under, ShapeOf;
    entries := {};
    var members := SubtreeMembers(s.store.children, ShapeOf(s.store.durable), root);
    if ProcessWork(s, members) { return false, {}; }
    var order := LeafFirstOrder(ShapeOf(s.store.durable), members);
    SameMembers(order, members);
    hide Subtree, MemberQuiet;
    for k := 0 to |order|
      invariant forall j | 0 <= j < k :: MemberQuiet(s, order[j])
      invariant entries == set i | i in order[..k] && i in s.runs.live && s.runs.live[i].runtime != 0
    {
      var i := order[k];
      assert i in IdsOf(order);
      if !MemberQuiet(s, i) { return false, {}; }
      assert order[..k + 1] == order[..k] + [i];
      if i in s.runs.live && s.runs.live[i].runtime != 0 { entries := entries + {i}; }
    }
    assert order[..|order|] == order;
    assert forall i | i in members :: i in IdsOf(order);
    assert entries == EntriesOf(s, root);
    ok := entries != {};
  }

  /** Some candidate lies strictly above. */
  ghost predicate Overshadowed(s: State, candidates: set<Id>, i: Id) {
    exists j :: j in candidates && j != i && Under(ShapeOf(s.store.durable), i, j)
  }

  method HasCandidateAbove(s: State, candidates: set<Id>, i: Id) returns (above: bool)
    requires WellFounded(ShapeOf(s.store.durable)) && i in s.store.durable
    ensures above == Overshadowed(s, candidates, i)
  {
    ghost var t := ShapeOf(s.store.durable);
    var p := s.store.durable[i].parent;
    StrictlyAbove(t, i);
    while p != NO_ID
      invariant p != NO_ID ==> p in s.store.durable && p != i && Under(t, i, p) && t[p].born < t[i].born
      invariant forall j | j in candidates && j != i :: Under(t, i, j) <==> (p != NO_ID && Under(t, p, j))
      decreases if p in s.store.durable then s.store.durable[p].born + 1 else 0
    {
      if p in candidates { return true; }
      StrictlyAbove(t, p);
      ghost var q := s.store.durable[p].parent;
      if q != NO_ID { UnderTransitive(t, i, p, q); }
      p := s.store.durable[p].parent;
    }
    return false;
  }

  lemma StrictlyAbove(t: Shape, i: Id)
    requires WellFounded(t) && i in t
    ensures forall j | j != i :: Under(t, i, j) <==> t[i].parent != NO_ID && Under(t, t[i].parent, j)
    ensures t[i].parent != NO_ID ==> t[i].parent in t && t[t[i].parent].born < t[i].born && Under(t, i, t[i].parent)
  {
    if t[i].parent != NO_ID { assert Under(t, t[i].parent, t[i].parent); }
  }

  method CandidateRoots(s: State) returns (roots: set<Id>)
    requires WellFounded(ShapeOf(s.store.durable)) && IndexExact(s.store.children, ShapeOf(s.store.durable))
    ensures roots == Roots(s)
  {
    hide ResidentTerminal, ClaimableSubtree, Under, ShapeOf;
    var candidates := {};
    var todo := s.store.durable.Keys;
    while todo != {}
      invariant todo <= s.store.durable.Keys && candidates == set i | i in s.store.durable && i !in todo && Candidate(s, i)
    {
      var i :| i in todo;
      todo := todo - {i};
      if ResidentTerminal(s, i) {
        NamedDelegate(s, i);
        var ok, _ := Claimable(s, i);
        if ok { candidates := candidates + {i}; }
      }
    }
    roots := {};
    todo := candidates;
    while todo != {}
      invariant todo <= candidates && roots == set i | i in candidates && i !in todo && !Overshadowed(s, candidates, i)
    {
      var i :| i in todo;
      todo := todo - {i};
      var above := HasCandidateAbove(s, candidates, i);
      if !above { roots := roots + {i}; }
    }
    forall i ensures i in roots <==> i in Roots(s) { RootIs(s, candidates, i); }
  }

  lemma NamedDelegate(s: State, i: Id)
    requires WellFounded(ShapeOf(s.store.durable)) && i in s.store.durable
    ensures i != NO_ID
  {
    assert i in ShapeOf(s.store.durable);
  }

  lemma RootIs(s: State, candidates: set<Id>, i: Id)
    requires candidates == set j | j in s.store.durable && Candidate(s, j)
    ensures i in Roots(s) <==> i in candidates && !Overshadowed(s, candidates, i)
  {
    hide ResidentTerminal, ClaimableSubtree, Under, ShapeOf;
  }

  // ---- The spending order ----

  ghost predicate Spendable(s: State, ids: seq<Id>) {
    forall k | 0 <= k < |ids| :: ids[k] in s.store.durable && s.store.durable[ids[k]].outcome.Some?
  }

  ghost predicate InOrder(s: State, ids: seq<Id>) {
    Spendable(s, ids) && forall j, k | 0 <= j < k < |ids| :: SpentBefore(s, ids[j], ids[k])
  }

  lemma SpendingIsTransitive(s: State, i: Id, j: Id, k: Id)
    requires Spendable(s, [i, j, k])
    ensures [i, j, k][0] in s.store.durable && [i, j, k][1] in s.store.durable && [i, j, k][2] in s.store.durable
    ensures SpentBefore(s, i, j) && SpentBefore(s, j, k) ==> SpentBefore(s, i, k)
    ensures i != j ==> SpentBefore(s, i, j) != SpentBefore(s, j, i)
  {
    assert [i, j, k][0] == i && [i, j, k][1] == j && [i, j, k][2] == k;
  }

  method InsertInOrder(s: State, ids: seq<Id>, i: Id) returns (longer: seq<Id>)
    requires InOrder(s, ids) && i !in ids && i in s.store.durable && s.store.durable[i].outcome.Some?
    ensures InOrder(s, longer) && forall x :: x in longer <==> x == i || x in ids
  {
    var k := 0;
    while k < |ids| && SpentBefore(s, ids[k], i)
      invariant 0 <= k <= |ids| && forall j | 0 <= j < k :: SpentBefore(s, ids[j], i)
    {
      k := k + 1;
    }
    longer := ids[..k] + [i] + ids[k..];
    if k < |ids| {
      assert SpentBefore(s, i, ids[k]) by { assert Spendable(s, [i, ids[k], i]); SpendingIsTransitive(s, i, ids[k], i); }
      forall j | k <= j < |ids| ensures SpentBefore(s, i, ids[j]) {
        assert Spendable(s, [i, ids[k], ids[j]]);
        SpendingIsTransitive(s, i, ids[k], ids[j]);
      }
    }
    hide SpentBefore;
    assert forall j | 0 <= j < |longer| :: longer[j] == if j < k then ids[j] else if j == k then i else ids[j - 1];
    assert longer[k] == i;
    forall x ensures x in longer <==> x == i || x in ids { }
  }

  method SpendingOrder(s: State, roots: set<Id>) returns (ids: seq<Id>)
    requires forall i | i in roots :: i in s.store.durable && s.store.durable[i].outcome.Some?
    ensures InOrder(s, ids) && forall i :: i in ids <==> i in roots
  {
    hide SpentBefore;
    ids := [];
    var todo := roots;
    while todo != {}
      invariant todo <= roots && InOrder(s, ids) && forall i :: i in ids <==> i in roots && i !in todo
    {
      var i :| i in todo;
      ids := InsertInOrder(s, ids, i);
      todo := todo - {i};
    }
  }

  // ---- The shortest sufficient prefix ----

  function Spent(ids: seq<Id>, k: nat): set<Id>
    requires k <= |ids|
  {
    set i | i in ids[..k]
  }

  lemma OneMoreRoot(s: State, ids: seq<Id>, k: nat)
    requires k < |ids| && (forall i | i in ids :: i in Roots(s)) && (forall j | 0 <= j < k :: ids[j] != ids[k])
    ensures |EntriesOver(s, Spent(ids, k + 1))| == |EntriesOver(s, Spent(ids, k))| + |EntriesOf(s, ids[k])|
  {
    var before, own := EntriesOver(s, Spent(ids, k)), EntriesOf(s, ids[k]);
    assert ids[..k + 1] == ids[..k] + [ids[k]];
    RootsAreUnrelated(s);
    assert ids[k] in ids;
    forall i | i in own ensures i !in before {
      if i in before {
        var r :| r in Spent(ids, k) && i in EntriesOf(s, r);
        assert r in ids;
        EntriesDoNotOverlap(s, r, ids[k]);
      }
    }
    hide Roots, EntriesOf, Under, ShapeOf;
    assert EntriesOver(s, Spent(ids, k + 1)) == before + own;
  }

  /** Roots are spent in order until they suffice. */
  method ShortestPrefix(s: State, ids: seq<Id>, needed: int) returns (k: nat, enough: bool)
    requires InOrder(s, ids) && (forall i :: i in ids <==> i in Roots(s)) && needed > 0
    ensures k <= |ids|
    ensures enough ==> |EntriesOver(s, Spent(ids, k))| >= needed && k > 0 && |EntriesOver(s, Spent(ids, k - 1))| < needed
    ensures !enough ==> |EntriesOver(s, Roots(s))| < needed
  {
    hide Roots, EntriesOf, SpentBefore, EntriesOver;
    k := 0;
    var claimed := 0;
    NothingSpent(s, ids);
    while k < |ids|
      invariant k <= |ids| && claimed == |EntriesOver(s, Spent(ids, k))| < needed
    {
      NoRepeats(s, ids, k);
      assert forall i | i in ids :: i in Roots(s);
      OneMoreRoot(s, ids, k);
      var own := EntriesOf(s, ids[k]);
      claimed, k := claimed + |own|, k + 1;
      if claimed >= needed { return k, true; }
    }
    AllSpent(s, ids);
    return k, false;
  }

  lemma NothingSpent(s: State, ids: seq<Id>)
    ensures |EntriesOver(s, Spent(ids, 0))| == 0
  {
    assert Spent(ids, 0) == {};
    assert EntriesOver(s, {}) == {};
  }

  lemma AllSpent(s: State, ids: seq<Id>)
    requires forall i :: i in ids <==> i in Roots(s)
    ensures Spent(ids, |ids|) == Roots(s)
  {
    hide Roots;
    assert ids[..|ids|] == ids;
  }

  lemma NoRepeats(s: State, ids: seq<Id>, k: nat)
    requires InOrder(s, ids) && k < |ids|
    ensures forall j | 0 <= j < k :: ids[j] != ids[k]
  {
    forall j | 0 <= j < k ensures ids[j] != ids[k] { assert SpentBefore(s, ids[j], ids[k]); }
  }

  /** The prefix is the selection: closed under the order, sufficient, and one short without its last. */
  lemma PrefixIsSelection(s: State, required: nat, ids: seq<Id>, k: nat)
    requires InOrder(s, ids) && (forall i :: i in ids <==> i in Roots(s)) && 0 < k <= |ids| && Needed(s, required) > 0
    requires |EntriesOver(s, Spent(ids, k))| >= Needed(s, required) && |EntriesOver(s, Spent(ids, k - 1))| < Needed(s, required)
    ensures Selection(s, required, Spent(ids, k))
  {
    hide Roots, EntriesOf, EntriesOver, Unsettled;
    var chosen := Spent(ids, k);
    forall i, j | i in Roots(s) && j in chosen && i in s.store.durable && j in s.store.durable && s.store.durable[i].outcome.Some?
                  && s.store.durable[j].outcome.Some? && SpentBefore(s, i, j)
      ensures i in chosen
    {
      assert i in ids;
      var a :| 0 <= a < |ids| && ids[a] == i;
      var b :| 0 <= b < k && ids[b] == j;
      if a >= k { NotSpentBefore(s, ids, b, a); }
    }
    RootsHaveOutcomes(s);
    forall last | last in chosen && (forall i | i in chosen && i != last :: SpentBefore(s, i, last))
      ensures |EntriesOver(s, chosen - {last})| < Needed(s, required)
    {
      LastIs(s, ids, k, last);
    }
  }

  lemma RootsHaveOutcomes(s: State)
    ensures forall i | i in Roots(s) :: i in s.store.durable && s.store.durable[i].outcome.Some?
  {
    hide ClaimableSubtree, Under, ShapeOf;
  }

  lemma NotSpentBefore(s: State, ids: seq<Id>, b: nat, a: nat)
    requires InOrder(s, ids) && b < a < |ids|
    ensures !SpentBefore(s, ids[a], ids[b])
  {
    assert SpentBefore(s, ids[b], ids[a]);
    assert Spendable(s, [ids[b], ids[a], ids[b]]);
    SpendingIsTransitive(s, ids[b], ids[a], ids[b]);
  }

  lemma LastIs(s: State, ids: seq<Id>, k: nat, last: Id)
    requires InOrder(s, ids) && 0 < k <= |ids| && last in Spent(ids, k)
    requires forall i | i in Spent(ids, k) :: i in s.store.durable && s.store.durable[i].outcome.Some?
    requires forall i | i in Spent(ids, k) && i != last :: SpentBefore(s, i, last)
    ensures Spent(ids, k) - {last} == Spent(ids, k - 1)
  {
    var b :| 0 <= b < k && ids[b] == last;
    assert ids[..k][k - 1] == ids[k - 1];
    assert ids[k - 1] in Spent(ids, k);
    if b < k - 1 {
      NotSpentBefore(s, ids, b, k - 1);
    }
    NoRepeats(s, ids, k - 1);
    hide SpentBefore;
    assert ids[..k] == ids[..k - 1] + [ids[k - 1]];
  }

  datatype Grant = Refused | Unneeded | Short | Granted(roots: set<Id>)

  /** What a claim for `required` new runtimes takes: nothing when they fit, an error only when all claimable subtrees
      together fall short, and otherwise the selection. */
  method SelectReclamation(s: State, required: nat) returns (g: Grant)
    requires WellFounded(ShapeOf(s.store.durable)) && IndexExact(s.store.children, ShapeOf(s.store.durable))
    ensures !g.Refused? && (g.Unneeded? <==> Needed(s, required) <= 0)
    ensures g.Short? <==> Needed(s, required) > 0 && |EntriesOver(s, Roots(s))| < Needed(s, required)
    ensures g.Granted? ==> Selection(s, required, g.roots)
  {
    hide Roots, EntriesOver, Unsettled, Selection, SpentBefore, Under, ShapeOf;
    var resident := CountUnsettled(s);
    var needed := resident + required - s.limits.retained;
    if needed <= 0 { return Unneeded; }
    var roots := CandidateRoots(s);
    RootsHaveOutcomes(s);
    var ids := SpendingOrder(s, roots);
    var k, enough := ShortestPrefix(s, ids, needed);
    if !enough { return Short; }
    PrefixIsSelection(s, required, ids, k);
    PrefixFits(s, required, ids, k);
    return Granted(Spent(ids, k));
  }

  lemma PrefixFits(s: State, required: nat, ids: seq<Id>, k: nat)
    requires k <= |ids| && Selection(s, required, Spent(ids, k))
    ensures |EntriesOver(s, Roots(s))| >= Needed(s, required)
  {
    hide Roots, EntriesOver, Unsettled, SpentBefore;
    if |EntriesOver(s, Roots(s))| < Needed(s, required) { ShortfallMeansAll(s, required, Spent(ids, k)); }
  }

  // ---- The least claim ----

  ghost predicate Ended(s: State, i: Id) {
    i in s.store.durable && s.store.durable[i].outcome.Some?
  }

  /** Candidate roots chosen in order: whatever is spent before a chosen one is chosen too. */
  ghost predicate Chosen(s: State, roots: set<Id>) {
    && roots <= Roots(s) && (forall i | i in Roots(s) :: Ended(s, i))
    && forall i, j | i in Roots(s) && j in roots && Sooner(s, i, j) :: i in roots
  }

  /** A choice in order that makes the room required. */
  ghost predicate Enough(s: State, required: nat, roots: set<Id>) {
    Chosen(s, roots) && |EntriesOver(s, roots)| >= Needed(s, required)
  }

  ghost predicate Sooner(s: State, i: Id, j: Id) {
    Ended(s, i) && Ended(s, j) && SpentBefore(s, i, j)
  }

  lemma SpendingIsTotal(s: State, i: Id, j: Id, k: Id)
    requires Ended(s, i) && Ended(s, j) && Ended(s, k)
    ensures Sooner(s, i, j) && Sooner(s, j, k) ==> Sooner(s, i, k)
    ensures i != j ==> Sooner(s, i, j) != Sooner(s, j, i)
  {
  }

  lemma MoreRootsMore(s: State, a: set<Id>, b: set<Id>)
    requires a <= b
    ensures |EntriesOver(s, a)| <= |EntriesOver(s, b)|
  {
    hide EntriesOf;
    assert EntriesOver(s, a) <= EntriesOver(s, b);
    CardMonotone(EntriesOver(s, a), EntriesOver(s, b));
  }

  /** The last of a set of roots to be spent. */
  lemma {:induction false} LastRoot(s: State, a: set<Id>, x: Id) returns (last: Id)
    requires x in a && forall i | i in a :: Ended(s, i)
    ensures last in a && (forall i | i in a && i != last :: Sooner(s, i, last)) && (last == x || Sooner(s, x, last))
    decreases a
  {
    hide Sooner;
    var rest := a - {x};
    assert forall i | i in a && i != x :: i in rest;
    last := x;
    if y :| y in rest {
      var m := LastRoot(s, rest, y);
      SpendingIsTotal(s, x, m, x);
      if Sooner(s, x, m) {
        last := m;
      } else {
        forall i | i in a && i != x ensures Sooner(s, i, x) { SpendingIsTotal(s, i, m, x); }
      }
    }
  }

  /** Of two choices in order one contains the other. */
  lemma ChoicesNest(s: State, a: set<Id>, b: set<Id>, x: Id)
    requires Chosen(s, a) && Chosen(s, b) && x in a && x !in b
    ensures b <= a - {x} && forall y | y in b :: Sooner(s, y, x)
  {
    hide Sooner, Roots;
    forall y | y in b ensures y in a && Sooner(s, y, x) { SpendingIsTotal(s, y, x, y); }
  }

  lemma WithoutLast(s: State, a: set<Id>, last: Id)
    requires Chosen(s, a) && last in a && forall i | i in a && i != last :: Sooner(s, i, last)
    ensures Chosen(s, a - {last})
  {
    hide Sooner, Roots;
    forall i, j | i in Roots(s) && j in a - {last} && Sooner(s, i, j) ensures i in a - {last} {
      SpendingIsTotal(s, i, j, i);
      SpendingIsTotal(s, j, last, j);
    }
  }

  lemma SelectionIsChosen(s: State, required: nat, a: set<Id>)
    requires Selection(s, required, a)
    ensures Enough(s, required, a)
    ensures forall last | last in a && (forall i | i in a && i != last :: Sooner(s, i, last)) :: |EntriesOver(s, a - {last})| < Needed(s, required)
  {
    RootsHaveOutcomes(s);
    hide SpentBefore, Roots, EntriesOver, Needed;
  }

  /** A choice in order that leaves out any of the roots makes too little room. */
  lemma LessIsTooLittle(s: State, required: nat, a: set<Id>, b: set<Id>, x: Id)
    requires Selection(s, required, a) && Chosen(s, b) && x in a && x !in b
    ensures |EntriesOver(s, b)| < Needed(s, required)
  {
    SelectionIsChosen(s, required, a);
    hide Sooner, Roots, EntriesOver, Needed, Selection;
    var last := LastRoot(s, a, x);
    ChoicesNest(s, a, b, x);
    SpendingIsTotal(s, x, last, x);
    MoreRootsMore(s, b, a - {last});
  }

  lemma LeastIsSelection(s: State, required: nat, roots: set<Id>)
    requires Needed(s, required) > 0 && Enough(s, required, roots) && forall b | Enough(s, required, b) :: roots <= b
    ensures Selection(s, required, roots)
  {
    hide Sooner, Roots, EntriesOver, Needed, Selection;
    forall last | last in roots && (forall i | i in roots && i != last :: Sooner(s, i, last))
      ensures |EntriesOver(s, roots - {last})| < Needed(s, required)
    {
      WithoutLast(s, roots, last);
      assert !(roots <= roots - {last});
      assert !Enough(s, required, roots - {last});
    }
    ChosenIsSelection(s, required, roots);
  }

  lemma ChosenIsSelection(s: State, required: nat, a: set<Id>)
    requires Needed(s, required) > 0 && Enough(s, required, a)
    requires forall last | last in a && (forall i | i in a && i != last :: Sooner(s, i, last)) :: |EntriesOver(s, a - {last})| < Needed(s, required)
    ensures Selection(s, required, a)
  {
    hide SpentBefore, Roots, EntriesOver, Needed;
    forall i | i in a ensures Ended(s, i) { assert i in Roots(s); }
    forall i, j | i in Roots(s) && j in a && SpentBefore(s, i, j) ensures i in a { assert Sooner(s, i, j); }
    forall last | last in a && (forall i | i in a && i != last :: SpentBefore(s, i, last)) ensures |EntriesOver(s, a - {last})| < Needed(s, required) {
      forall i | i in a && i != last ensures Sooner(s, i, last) { assert SpentBefore(s, i, last); }
    }
  }

  /** A claim's roots are exactly the least choice in order that makes the room required, when room is wanting at all. */
  lemma SelectionExactly(s: State, required: nat, roots: set<Id>)
    ensures Selection(s, required, roots) <==>
            Needed(s, required) > 0 && Enough(s, required, roots) && forall b | Enough(s, required, b) :: roots <= b
  {
    if Selection(s, required, roots) {
      SelectionIsChosen(s, required, roots);
      hide Chosen, Roots, EntriesOver, Needed;
      forall b, x | Enough(s, required, b) && x in roots ensures x in b {
        if x !in b { LessIsTooLittle(s, required, roots, b, x); }
      }
    } else if Needed(s, required) > 0 && Enough(s, required, roots) && forall b | Enough(s, required, b) :: roots <= b {
      LeastIsSelection(s, required, roots);
    }
  }
}
