/** Parentage: ancestor chains over the durable tree, and its child index. */
module Tree {
  import opened Types

  /** What parentage depends on: each delegate's parent and creation sequence. */
  datatype Node = Node(parent: Id, born: nat)
  type Shape = map<Id, Node>

  function ShapeOf(d: Durable): Shape {
    map i | i in d :: Node(d[i].parent, d[i].born)
  }

  /** A parent exists, and is older than its child. */
  ghost predicate WellFounded(t: Shape) {
    && NO_ID !in t
    && forall i | i in t && t[i].parent != NO_ID :: t[i].parent in t && t[t[i].parent].born < t[i].born
  }

  /** The id above `i`, when the tree holds an older delegate there. */
  predicate HasParent(t: Shape, i: Id) {
    i in t && t[i].parent != NO_ID && t[i].parent in t && t[t[i].parent].born < t[i].born
  }

  /** `i` is `target`, or one of its transitive parents is. */
  predicate Under(t: Shape, i: Id, target: Id)
    decreases if i in t then t[i].born + 1 else 0
  {
    i == target || (HasParent(t, i) && Under(t, t[i].parent, target))
  }

  function Depth(t: Shape, i: Id): nat
    decreases if i in t then t[i].born + 1 else 0
  {
    if i !in t then 0 else if HasParent(t, i) then 1 + Depth(t, t[i].parent) else 1
  }

  function Subtree(t: Shape, target: Id): set<Id> {
    {target} + set i | i in t && Under(t, i, target)
  }

  lemma {:induction false} UnderTransitive(t: Shape, i: Id, j: Id, k: Id)
    requires Under(t, i, j) && Under(t, j, k)
    ensures Under(t, i, k)
    decreases if i in t then t[i].born + 1 else 0
  {
    if i != j {
      UnderTransitive(t, t[i].parent, j, k);
    }
  }

  /** Two ancestors of one delegate are comparable. */
  lemma {:induction false} AncestorsComparable(t: Shape, i: Id, j: Id, k: Id)
    requires Under(t, i, j) && Under(t, i, k)
    ensures Under(t, j, k) || Under(t, k, j)
    decreases if i in t then t[i].born + 1 else 0
  {
    if i != j && i != k {
      AncestorsComparable(t, t[i].parent, j, k);
    }
  }

  lemma {:induction false} UnderIsNotOlder(t: Shape, i: Id, j: Id)
    requires Under(t, i, j) && i != j
    ensures i in t && j in t && t[j].born < t[i].born
    decreases if i in t then t[i].born + 1 else 0
  {
    if t[i].parent != j {
      UnderIsNotOlder(t, t[i].parent, j);
    }
  }

  /** Every descendant is strictly deeper than its ancestor. */
  lemma {:induction false} DescendantsAreDeeper(t: Shape, i: Id, j: Id)
    requires Under(t, i, j) && i != j
    ensures Depth(t, i) > Depth(t, j)
    decreases if i in t then t[i].born + 1 else 0
  {
    if t[i].parent != j {
      DescendantsAreDeeper(t, t[i].parent, j);
    }
  }

  /** Creating a youngest delegate changes no chain of the delegates already there. */
  lemma {:induction false} GrowthKeepsChains(t: Shape, n: Id, node: Node, i: Id, target: Id)
    requires WellFounded(t) && n !in t && n != NO_ID && i != n
    ensures Under(t[n := node], i, target) <==> Under(t, i, target)
    decreases if i in t then t[i].born + 1 else 0
  {
    var u := t[n := node];
    if i != target && i in t && t[i].parent != NO_ID {
      assert t[i].parent in t && t[i].parent != n;
      GrowthKeepsChains(t, n, node, t[i].parent, target);
    }
  }

  lemma GrowthAddsLeaf(t: Shape, n: Id, node: Node, target: Id)
    requires WellFounded(t) && n !in t && n != NO_ID
    requires node.parent == NO_ID || (node.parent in t && t[node.parent].born < node.born)
    ensures WellFounded(t[n := node])
    ensures Under(t[n := node], n, target) <==>
            n == target || (node.parent != NO_ID && Under(t, node.parent, target))
  {
    var u := t[n := node];
    assert forall i | i in u && i != n :: u[i] == t[i];
    if node.parent != NO_ID {
      GrowthKeepsChains(t, n, node, node.parent, target);
    }
  }

  // ---- The children index ----

  type Index = map<Id, set<Id>>

  /** The children the durable parentage gives `p`. */
  function ChildrenOf(t: Shape, p: Id): set<Id> {
    set i | i in t && t[i].parent == p
  }

  function Kids(index: Index, p: Id): set<Id> {
    if p in index then index[p] else {}
  }

  /** The incrementally kept index is the one the durable parentage derives; root-level delegates add no edge. */
  ghost predicate IndexExact(index: Index, t: Shape) {
    && NO_ID !in index
    && forall p: Id | p != NO_ID :: Kids(index, p) == ChildrenOf(t, p)
  }

  function AddChildEdge(index: Index, child: Id, parent: Id): Index {
    if parent == NO_ID then index else index[parent := Kids(index, parent) + {child}]
  }

  lemma AddChildEdgeKeepsIndexExact(index: Index, t: Shape, n: Id, node: Node)
    requires IndexExact(index, t) && n !in t
    ensures IndexExact(AddChildEdge(index, n, node.parent), t[n := node])
  {
    var u := t[n := node];
    var index' := AddChildEdge(index, n, node.parent);
    forall p: Id | p != NO_ID
      ensures Kids(index', p) == ChildrenOf(u, p)
    {
      assert Kids(index, p) == ChildrenOf(t, p);
      assert forall i | i in u && i != n :: u[i] == t[i];
    }
  }

  /** Rebuilding the index from the durable records, as the constructor does. */
  method DeriveChildrenIndex(t: Shape) returns (index: Index)
    requires NO_ID !in t
    ensures IndexExact(index, t)
  {
    index := map[];
    var todo := t.Keys;
    while todo != {}
      invariant todo <= t.Keys && NO_ID !in index
      invariant forall p: Id | p != NO_ID :: Kids(index, p) == set i | i in t && i !in todo && t[i].parent == p
      decreases |todo|
    {
      var i :| i in todo;
      var before := index;
      todo := todo - {i};
      index := AddChildEdge(index, i, t[i].parent);
      assert forall p: Id | p != NO_ID && p != t[i].parent :: Kids(index, p) == Kids(before, p);
      assert t[i].parent != NO_ID ==> Kids(index, t[i].parent) == Kids(before, t[i].parent) + {i};
    }
  }

  /** One node of the walk: every child not seen yet joins the members and the worklist. */
  method VisitChildren(kids: set<Id>, seen: set<Id>, held: seq<Id>) returns (members: set<Id>, stack: seq<Id>)
    ensures members == seen + kids
    ensures held <= stack
    ensures forall k | |held| <= k < |stack| :: stack[k] in kids - seen
    ensures forall i | i in kids - seen :: i in stack
    ensures |stack| > |held| ==> seen < members
  {
    members, stack := seen, held;
    var todo := kids;
    while todo != {}
      invariant todo <= kids && members == seen + (kids - todo)
      invariant held <= stack
      invariant forall k | |held| <= k < |stack| :: stack[k] in kids - seen
      invariant forall i | i in kids - todo - seen :: i in stack
      invariant |stack| > |held| ==> seen < members
      decreases |todo|
    {
      var child :| child in todo;
      todo := todo - {child};
      if child !in members {
        var was := stack;
        members := members + {child};
        stack := stack + [child];
        assert child == stack[|stack| - 1];
        assert forall i | i in was :: i in stack;
      }
    }
  }

  /** What the walk has established: members lie under the target, and only worklist members may miss children. */
  ghost predicate WalkInv(index: Index, t: Shape, target: Id, members: set<Id>, stack: seq<Id>) {
    && target in members
    && members <= t.Keys + {target}
    && (forall k | 0 <= k < |stack| :: stack[k] in members)
    && (forall i | i in members :: Under(t, i, target))
    && (forall i | i in members && i !in stack :: Kids(index, i) <= members)
  }

  lemma VisitKeepsWalk(index: Index, t: Shape, target: Id, members: set<Id>, stack: seq<Id>,
                       members': set<Id>, stack': seq<Id>)
    requires WellFounded(t) && IndexExact(index, t) && target != NO_ID
    requires stack != [] && WalkInv(index, t, target, members, stack)
    requires members' == members + Kids(index, stack[|stack| - 1])
    requires stack[..|stack| - 1] <= stack'
    requires forall k | |stack| - 1 <= k < |stack'| :: stack'[k] in members'
    requires forall i | i in members' - members :: i in stack'
    ensures WalkInv(index, t, target, members', stack')
  {
    var id := stack[|stack| - 1];
    MemberIsNamed(t, id, target);
    assert Kids(index, id) == ChildrenOf(t, id);
    forall i | i in members' ensures Under(t, i, target) {
      if i !in members {
        assert HasParent(t, i) && t[i].parent == id;
      }
    }
    forall k | 0 <= k < |stack'| ensures stack'[k] in members' {
      if k < |stack| - 1 {
        assert stack'[k] == stack[k];
      }
    }
    forall i | i in stack && i != id ensures i in stack' {
      var k :| 0 <= k < |stack| && stack[k] == i;
      assert stack'[k] == i;
    }
  }

  /** The worklist membership walk over the index. */
  method SubtreeMembers(index: Index, t: Shape, target: Id) returns (members: set<Id>)
    requires WellFounded(t) && IndexExact(index, t) && target != NO_ID
    ensures members == Subtree(t, target)
  {
    members := {target};
    var stack := [target];
    while stack != []
      invariant WalkInv(index, t, target, members, stack)
      decreases t.Keys + {target} - members, |stack|
    {
      var before, held := members, stack;
      members, stack := VisitChildren(Kids(index, stack[|stack| - 1]), members, stack[..|stack| - 1]);
      VisitKeepsWalk(index, t, target, before, held, members, stack);
    }
    forall i | i in Subtree(t, target) ensures i in members {
      assert NO_ID !in members by {
        if NO_ID in members { MemberIsNamed(t, NO_ID, target); }
      }
      ClosedHoldsSubtree(index, t, target, members, i);
    }
  }

  lemma MemberIsNamed(t: Shape, i: Id, target: Id)
    requires WellFounded(t) && Under(t, i, target) && target != NO_ID
    ensures i != NO_ID
  {
    if i != target {
      UnderIsNotOlder(t, i, target);
    }
  }

  lemma {:induction false} ClosedHoldsSubtree(index: Index, t: Shape, target: Id, members: set<Id>, i: Id)
    requires WellFounded(t) && IndexExact(index, t) && target in members && NO_ID !in members
    requires forall j | j in members :: Kids(index, j) <= members
    requires Under(t, i, target)
    ensures i in members
    decreases if i in t then t[i].born + 1 else 0
  {
    if i != target {
      ClosedHoldsSubtree(index, t, target, members, t[i].parent);
      assert i in ChildrenOf(t, t[i].parent);
    }
  }

  // ---- Leaf-first order ----

  /** The order a teardown visits members in: deeper first, then by id. */
  predicate Before(t: Shape, i: Id, j: Id) {
    Depth(t, i) > Depth(t, j) || (Depth(t, i) == Depth(t, j) && i < j)
  }

  ghost predicate LeafFirst(t: Shape, ids: seq<Id>) {
    forall a, b | 0 <= a < b < |ids| :: Before(t, ids[a], ids[b])
  }

  method InsertLeafFirst(t: Shape, ids: seq<Id>, i: Id) returns (longer: seq<Id>)
    requires LeafFirst(t, ids) && i !in ids
    ensures LeafFirst(t, longer)
    ensures multiset(longer) == multiset(ids) + multiset{i}
  {
    var k := 0;
    while k < |ids| && Before(t, ids[k], i)
      invariant 0 <= k <= |ids|
      invariant forall a | 0 <= a < k :: Before(t, ids[a], i)
    {
      k := k + 1;
    }
    assert forall a | k <= a < |ids| :: Before(t, i, ids[a]);
    hide Before;
    longer := ids[..k] + [i] + ids[k..];
    InsertedInOrder(t, ids, k, i);
    assert ids == ids[..k] + ids[k..];
  }

  lemma InsertedInOrder(t: Shape, ids: seq<Id>, k: nat, i: Id)
    requires LeafFirst(t, ids) && k <= |ids|
    requires (forall a | 0 <= a < k :: Before(t, ids[a], i)) && (forall a | k <= a < |ids| :: Before(t, i, ids[a]))
    ensures LeafFirst(t, ids[..k] + [i] + ids[k..])
  {
    hide Before;
    var longer := ids[..k] + [i] + ids[k..];
    assert forall a | 0 <= a < |longer| :: longer[a] == if a < k then ids[a] else if a == k then i else ids[a - 1];
  }

  /** Sorting a member set leaf-first: every member once, every descendant before its ancestors. */
  method LeafFirstOrder(t: Shape, members: set<Id>) returns (ids: seq<Id>)
    ensures LeafFirst(t, ids)
    ensures multiset(ids) == multiset(members)
    ensures forall a, b | 0 <= a < |ids| && 0 <= b < |ids| && ids[a] != ids[b] && Under(t, ids[a], ids[b]) :: a < b
  {
    ids := [];
    var todo := members;
    while todo != {}
      invariant todo <= members
      invariant LeafFirst(t, ids)
      invariant multiset(ids) == multiset(members - todo)
      decreases |todo|
    {
      var i :| i in todo;
      assert i !in multiset(ids);
      ids := InsertLeafFirst(t, ids, i);
      assert members - (todo - {i}) == (members - todo) + {i};
      todo := todo - {i};
    }
    assert members - todo == members;
    forall a, b | 0 <= a < |ids| && 0 <= b < |ids| && ids[a] != ids[b] && Under(t, ids[a], ids[b])
      ensures a < b
    {
      DescendantsAreDeeper(t, ids[a], ids[b]);
    }
  }

  function IdsOf(order: seq<Id>): set<Id> {
    set i | i in order
  }

  lemma SameMembers(order: seq<Id>, members: set<Id>)
    requires multiset(order) == multiset(members)
    ensures IdsOf(order) == members
  {
    forall i ensures i in order <==> i in members {
      assert i in multiset(order) <==> i in multiset(members);
    }
  }

  // ---- Teardown waves ----

  /** Each wave holds one depth, and later waves lie strictly higher. */
  ghost predicate Waves(t: Shape, waves: seq<seq<Id>>) {
    && (forall w | 0 <= w < |waves| :: waves[w] != [] && forall i | i in waves[w] :: Depth(t, i) == Depth(t, waves[w][0]))
    && (forall v, w | 0 <= v < w < |waves| && waves[v] != [] && waves[w] != [] :: Depth(t, waves[v][0]) > Depth(t, waves[w][0]))
  }

  function Flat(waves: seq<seq<Id>>): seq<Id> {
    if waves == [] then [] else Flat(waves[..|waves| - 1]) + waves[|waves| - 1]
  }

  /** Where the run of one depth that starts here ends; what follows lies strictly higher. */
  method WaveEnd(t: Shape, sorted: seq<Id>, start: nat) returns (end: nat)
    requires LeafFirst(t, sorted) && start < |sorted|
    ensures start < end <= |sorted| && forall k | start <= k < end :: Depth(t, sorted[k]) == Depth(t, sorted[start])
    ensures end < |sorted| ==> Depth(t, sorted[end]) < Depth(t, sorted[start])
  {
    end := start + 1;
    while end < |sorted| && Depth(t, sorted[end]) == Depth(t, sorted[start])
      invariant start < end <= |sorted| && forall k | start <= k < end :: Depth(t, sorted[k]) == Depth(t, sorted[start])
    {
      end := end + 1;
    }
    assert end < |sorted| ==> Before(t, sorted[start], sorted[end]);
  }

  ghost predicate AllDeeper(t: Shape, waves: seq<seq<Id>>, depth: nat) {
    forall w | 0 <= w < |waves| :: waves[w] != [] && Depth(t, waves[w][0]) > depth
  }

  lemma WaveAdded(t: Shape, waves: seq<seq<Id>>, wave: seq<Id>, below: nat)
    requires Waves(t, waves) && wave != [] && AllDeeper(t, waves, Depth(t, wave[0])) && (forall i | i in wave :: Depth(t, i) == Depth(t, wave[0]))
    ensures Waves(t, waves + [wave]) && Flat(waves + [wave]) == Flat(waves) + wave
    ensures below < Depth(t, wave[0]) ==> AllDeeper(t, waves + [wave], below)
  {
    hide Depth;
    assert (waves + [wave])[..|waves|] == waves;
  }

  /** Splitting a leaf-first order on depth boundaries. */
  method SplitWaves(t: Shape, sorted: seq<Id>) returns (waves: seq<seq<Id>>)
    requires LeafFirst(t, sorted)
    ensures Waves(t, waves) && Flat(waves) == sorted
  {
    hide Waves, LeafFirst, Depth, Flat, AllDeeper;
    waves := [];
    NoWaves(t);
    var start := 0;
    while start < |sorted|
      invariant 0 <= start <= |sorted| && Waves(t, waves) && Flat(waves) == sorted[..start]
      invariant start < |sorted| ==> waves == [] || AllDeeper(t, waves, Depth(t, sorted[start]))
    {
      var end := WaveEnd(t, sorted, start);
      var wave := sorted[start..end];
      NoneDeeper(t, Depth(t, wave[0]));
      WaveAdded(t, waves, wave, if end < |sorted| then Depth(t, sorted[end]) else 0);
      assert sorted[..end] == sorted[..start] + wave;
      waves, start := waves + [wave], end;
    }
    assert sorted[..start] == sorted;
  }

  /** The entries of a reclamation, sorted deepest first and by id, in waves of one depth: each entry once, every strict
      descendant in a strictly earlier wave. */
  method TeardownWaves(t: Shape, entries: set<Id>) returns (waves: seq<seq<Id>>)
    ensures Waves(t, waves) && LeafFirst(t, Flat(waves)) && multiset(Flat(waves)) == multiset(entries)
    ensures forall v, w, i, j | 0 <= v < |waves| && 0 <= w < |waves| && i in waves[v] && j in waves[w] && i != j && Under(t, i, j) :: v < w
  {
    var sorted := LeafFirstOrder(t, entries);
    waves := SplitWaves(t, sorted);
    hide Waves, LeafFirst, Flat;
    forall v: nat, w: nat, i, j | v < |waves| && w < |waves| && i in waves[v] && j in waves[w] && i != j && Under(t, i, j) ensures v < w {
      DescendantsGoFirst(t, waves, v, w, i, j);
    }
  }

  lemma NoWaves(t: Shape)
    ensures Waves(t, []) && Flat([]) == []
  {
  }

  lemma NoneDeeper(t: Shape, depth: nat)
    ensures AllDeeper(t, [], depth)
  {
  }

  /** A wave's members have no strict descendant in the same or a later wave. */
  lemma DescendantsGoFirst(t: Shape, waves: seq<seq<Id>>, v: nat, w: nat, i: Id, j: Id)
    requires Waves(t, waves) && v < |waves| && w < |waves| && i in waves[v] && j in waves[w] && i != j && Under(t, i, j)
    ensures v < w
  {
    DescendantsAreDeeper(t, i, j);
    hide Depth;
  }
}
