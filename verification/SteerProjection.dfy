/** Which steers a model request binds, and where it puts them. */
module SteerProjection {
  import opened Types

  /** A turn of the history; steering turns are known by their stable id. */
  datatype Turn = Turn(steering: bool, id: nat, body: nat)

  predicate Dropped(t: Turn, excluded: set<nat>) {
    t.steering && t.id in excluded
  }

  /** The first steering turn with an id, among the first `k` turns. */
  function First(history: seq<Turn>, id: nat, k: nat): Option<Turn>
    requires k <= |history|
  {
    if k == 0 then None
    else if First(history, id, k - 1).Some? then First(history, id, k - 1)
    else if history[k - 1].steering && history[k - 1].id == id then Some(history[k - 1])
    else None
  }

  /** A steering turn the request takes out: claimed, and the first of its id. */
  predicate Taken(history: seq<Turn>, claimed: seq<nat>, k: nat)
    requires k < |history|
  {
    history[k].steering && history[k].id in claimed && First(history, history[k].id, k).None?
  }

  /** The first `k` turns without dropped and taken ones, in order. */
  function Rest(history: seq<Turn>, claimed: seq<nat>, excluded: set<nat>, k: nat): seq<Turn>
    requires k <= |history|
  {
    if k == 0 then []
    else Rest(history, claimed, excluded, k - 1)
         + (if Dropped(history[k - 1], excluded) || Taken(history, claimed, k - 1) then [] else [history[k - 1]])
  }

  predicate Binds(history: seq<Turn>, excluded: set<nat>, id: nat, k: nat)
    requires k <= |history|
  {
    id !in excluded && First(history, id, k).Some?
  }

  /** The claim `i` stands for its id: a repeated id counts where it was claimed last. */
  predicate Stands(claimed: seq<nat>, i: nat)
    requires i < |claimed|
  {
    claimed[i] !in claimed[i + 1..]
  }

  /** The bound steers among the first `i` claimed ids, in claim order. */
  function Tail(history: seq<Turn>, claimed: seq<nat>, excluded: set<nat>, i: nat): seq<Turn>
    requires i <= |claimed|
  {
    if i == 0 then []
    else Tail(history, claimed, excluded, i - 1)
         + (if Stands(claimed, i - 1) && Binds(history, excluded, claimed[i - 1], |history|) then [First(history, claimed[i - 1], |history|).value] else [])
  }

  function Bound(history: seq<Turn>, claimed: seq<nat>, excluded: set<nat>): set<nat> {
    set id | id in claimed && Binds(history, excluded, id, |history|)
  }

  /** The history holds the steering turn of `id`. */
  predicate Holds(history: seq<Turn>, id: nat) {
    exists k | 0 <= k < |history| :: history[k].steering && history[k].id == id
  }

  lemma {:induction false} FirstFinds(history: seq<Turn>, id: nat, k: nat)
    requires k <= |history|
    ensures First(history, id, k).Some? <==> Holds(history[..k], id)
  {
    if k > 0 {
      FirstFinds(history, id, k - 1);
      assert history[..k] == history[..k - 1] + [history[k - 1]];
      if Holds(history[..k - 1], id) {
        var j :| 0 <= j < k - 1 && history[..k - 1][j].steering && history[..k - 1][j].id == id;
        assert history[..k][j].steering && history[..k][j].id == id;
      }
      if history[k - 1].steering && history[k - 1].id == id { assert history[..k][k - 1].id == id; }
    }
  }

  /** A request binds exactly the claimed steers its history holds, when nothing claimed is excluded. */
  lemma BoundExactly(history: seq<Turn>, claimed: seq<nat>, excluded: set<nat>, id: nat)
    requires id in claimed ==> id !in excluded
    ensures id in Bound(history, claimed, excluded) <==> id in claimed && Holds(history, id)
  {
    FirstFinds(history, id, |history|);
    assert history[..|history|] == history;
  }

  // ---- The pass ----

  /** Where an id was claimed last, as the index map keeps it. */
  method IndexOf(ids: seq<nat>, id: nat) returns (i: nat)
    ensures i <= |ids| && (i < |ids| ==> ids[i] == id && Stands(ids, i)) && (i == |ids| <==> id !in ids)
  {
    var k: nat := |ids|;
    while k > 0 && ids[k - 1] != id
      invariant 0 <= k <= |ids| && id !in ids[k..]
    {
      k := k - 1;
      assert ids[k..] == [ids[k]] + ids[k + 1..];
    }
    if k == 0 {
      assert ids[0..] == ids;
      return |ids|;
    }
    return k - 1;
  }

  /** What has been found so far, claim by claim. */
  ghost predicate Tracks(found: seq<Option<Turn>>, history: seq<Turn>, claimed: seq<nat>, excluded: set<nat>, k: nat)
    requires k <= |history|
  {
    |found| == |claimed| && forall i | 0 <= i < |claimed| ::
      found[i] == if !Stands(claimed, i) || claimed[i] in excluded then None else First(history, claimed[i], k)
  }

  /** Two places that stand for one id are the same. */
  lemma StandsOnce(claimed: seq<nat>, i: nat, j: nat)
    requires i < |claimed| && j < |claimed| && claimed[i] == claimed[j] && Stands(claimed, i) && Stands(claimed, j)
    ensures i == j
  {
  }

  lemma StillTracks(found: seq<Option<Turn>>, history: seq<Turn>, claimed: seq<nat>, excluded: set<nat>, k: nat, index: nat)
    requires k < |history| && Tracks(found, history, claimed, excluded, k) && index <= |claimed|
    requires index < |claimed| ==> claimed[index] == history[k].id && Stands(claimed, index)
    requires index == |claimed| <==> history[k].id !in claimed
    ensures var turn := history[k];
            var takes := !Dropped(turn, excluded) && index < |claimed| && turn.steering && found[index].None?;
            && Tracks(if takes then found[index := Some(turn)] else found, history, claimed, excluded, k + 1)
            && (!Dropped(turn, excluded) ==> (takes <==> Taken(history, claimed, k)))
  {
    forall i: nat | i < |claimed| && Stands(claimed, i) && claimed[i] == history[k].id && index < |claimed| ensures i == index { StandsOnce(claimed, i, index); }
  }

  /** One pass over the history, then the claimed steers it found, in admission order. */
  method Project(history: seq<Turn>, claimed: seq<nat>, excluded: set<nat>) returns (projected: seq<Turn>, bound: set<nat>)
    ensures projected == Rest(history, claimed, excluded, |history|) + Tail(history, claimed, excluded, |claimed|)
    ensures bound == Bound(history, claimed, excluded)
  {
    var found := seq(|claimed|, _ => None);
    projected := [];
    for k := 0 to |history|
      invariant projected == Rest(history, claimed, excluded, k) && Tracks(found, history, claimed, excluded, k)
    {
      hide First, Stands, Taken, Tracks;
      var turn := history[k];
      var index := IndexOf(claimed, turn.id);
      StillTracks(found, history, claimed, excluded, k, index);
      TracksLength(found, history, claimed, excluded, k);
      if !Dropped(turn, excluded) {
        if index < |claimed| && turn.steering && found[index].None? { found := found[index := Some(turn)]; }
        else { projected := projected + [turn]; }
      }
    }
    bound := {};
    ghost var rest := projected;
    for i := 0 to |claimed|
      invariant projected == rest + Tail(history, claimed, excluded, i)
      invariant bound == set j | 0 <= j < i && found[j].Some? :: claimed[j]
    {
      if found[i].Some? {
        projected := projected + [found[i].value];
        bound := bound + {claimed[i]};
      }
    }
    FoundIsBound(found, history, claimed, excluded);
  }

  lemma TracksLength(found: seq<Option<Turn>>, history: seq<Turn>, claimed: seq<nat>, excluded: set<nat>, k: nat)
    requires k <= |history| && Tracks(found, history, claimed, excluded, k)
    ensures |found| == |claimed|
  {
  }

  lemma FoundIsBound(found: seq<Option<Turn>>, history: seq<Turn>, claimed: seq<nat>, excluded: set<nat>)
    requires Tracks(found, history, claimed, excluded, |history|)
    ensures (set j | 0 <= j < |claimed| && found[j].Some? :: claimed[j]) == Bound(history, claimed, excluded)
  {
    forall id | id in Bound(history, claimed, excluded) ensures exists j :: 0 <= j < |claimed| && found[j].Some? && claimed[j] == id {
      LastStands(claimed, id);
      var j: nat :| j < |claimed| && claimed[j] == id && Stands(claimed, j);
      assert found[j].Some?;
    }
  }

  lemma {:induction false} LastStands(claimed: seq<nat>, id: nat)
    requires id in claimed
    ensures exists j: nat :: j < |claimed| && claimed[j] == id && Stands(claimed, j)
  {
    if claimed[0] == id && Stands(claimed, 0) {
    } else {
      assert id in claimed[1..];
      LastStands(claimed[1..], id);
      var j: nat :| j < |claimed[1..]| && claimed[1..][j] == id && Stands(claimed[1..], j);
      assert claimed[1..][j + 1..] == claimed[j + 2..];
      assert Stands(claimed, j + 1) && claimed[j + 1] == id;
    }
  }

  // ---- What the projection keeps ----

  /** The history without dropped turns. */
  function Visible(history: seq<Turn>, excluded: set<nat>, k: nat): seq<Turn>
    requires k <= |history|
  {
    if k == 0 then [] else Visible(history, excluded, k - 1) + (if Dropped(history[k - 1], excluded) then [] else [history[k - 1]])
  }

  /** The taken turns of a prefix, as they stand in the history. */
  function Out(history: seq<Turn>, claimed: seq<nat>, excluded: set<nat>, k: nat): seq<Turn>
    requires k <= |history|
  {
    if k == 0 then []
    else Out(history, claimed, excluded, k - 1)
         + (if !Dropped(history[k - 1], excluded) && Taken(history, claimed, k - 1) then [history[k - 1]] else [])
  }

  lemma SplitStep(r: seq<Turn>, o: seq<Turn>, v: seq<Turn>, h: Turn, dropped: bool, taken: bool)
    requires multiset(r) + multiset(o) == multiset(v)
    ensures multiset(r + (if dropped || taken then [] else [h])) + multiset(o + (if !dropped && taken then [h] else []))
            == multiset(v + (if dropped then [] else [h]))
  {
    assert r + [] == r && o + [] == o && v + [] == v;
  }

  lemma {:induction false} SplitsVisible(history: seq<Turn>, claimed: seq<nat>, excluded: set<nat>, k: nat)
    requires k <= |history|
    ensures multiset(Rest(history, claimed, excluded, k)) + multiset(Out(history, claimed, excluded, k)) == multiset(Visible(history, excluded, k))
  {
    hide Taken, Dropped;
    if k > 0 {
      SplitsVisible(history, claimed, excluded, k - 1);
      SplitStep(Rest(history, claimed, excluded, k - 1), Out(history, claimed, excluded, k - 1), Visible(history, excluded, k - 1), history[k - 1],
                Dropped(history[k - 1], excluded), Taken(history, claimed, k - 1));
    }
  }

  lemma CountsOne(s: seq<Turn>, x: Turn, t: Turn)
    ensures multiset(s + [x])[t] == multiset(s)[t] + if x == t then 1 else 0
    ensures s + [] == s
  {
  }

  lemma {:induction false} FirstIs(history: seq<Turn>, id: nat, k: nat)
    requires k <= |history| && First(history, id, k).Some?
    ensures First(history, id, k).value.steering && First(history, id, k).value.id == id
  {
    if First(history, id, k - 1).Some? { FirstIs(history, id, k - 1); }
  }

  /** A turn is taken out as often as it is put last. */
  lemma {:induction false} OutHolds(history: seq<Turn>, claimed: seq<nat>, excluded: set<nat>, k: nat, t: Turn)
    requires k <= |history|
    ensures multiset(Out(history, claimed, excluded, k))[t]
            == if t.steering && t.id in claimed && t.id !in excluded && First(history, t.id, k) == Some(t) then 1 else 0
  {
    if k > 0 {
      OutHolds(history, claimed, excluded, k - 1, t);
      CountsOne(Out(history, claimed, excluded, k - 1), history[k - 1], t);
      if First(history, t.id, k - 1).Some? { FirstIs(history, t.id, k - 1); }
    }
  }

  /** The place that stands for `id` is among the first `i`. */
  ghost predicate StandsBefore(claimed: seq<nat>, i: nat, id: nat) {
    exists q: nat :: q < i <= |claimed| && claimed[q] == id && Stands(claimed, q)
  }

  lemma {:induction false} TailHolds(history: seq<Turn>, claimed: seq<nat>, excluded: set<nat>, i: nat, t: Turn)
    requires i <= |claimed|
    ensures multiset(Tail(history, claimed, excluded, i))[t]
            == if t.steering && StandsBefore(claimed, i, t.id) && t.id !in excluded && First(history, t.id, |history|) == Some(t) then 1 else 0
  {
    hide Stands;
    if i > 0 {
      TailHolds(history, claimed, excluded, i - 1, t);
      StandsSteps(claimed, i, t.id);
      hide StandsBefore;
      var before, found := Tail(history, claimed, excluded, i - 1), First(history, claimed[i - 1], |history|);
      hide First;
      if Stands(claimed, i - 1) && Binds(history, excluded, claimed[i - 1], |history|) {
        FirstIs(history, claimed[i - 1], |history|);
        CountsOne(before, found.value, t);
      } else {
        CountsOne(before, t, t);
      }
    }
  }

  lemma StandsSteps(claimed: seq<nat>, i: nat, id: nat)
    requires 0 < i <= |claimed|
    ensures StandsBefore(claimed, i, id) <==> StandsBefore(claimed, i - 1, id) || (claimed[i - 1] == id && Stands(claimed, i - 1))
    ensures claimed[i - 1] == id && Stands(claimed, i - 1) ==> !StandsBefore(claimed, i - 1, id)
  {
    if StandsBefore(claimed, i, id) {
      var q: nat :| q < i && claimed[q] == id && Stands(claimed, q);
      assert q < i - 1 ==> StandsBefore(claimed, i - 1, id);
    }
    forall q: nat | q < i - 1 && claimed[q] == claimed[i - 1] ensures !Stands(claimed, q) {
      assert claimed[q + 1..][i - 2 - q] == claimed[i - 1];
    }
  }

  /** The request sees every turn it does not exclude, each as often as the history holds it; the bound steers come last. */
  lemma ProjectionConserves(history: seq<Turn>, claimed: seq<nat>, excluded: set<nat>)
    ensures multiset(Rest(history, claimed, excluded, |history|) + Tail(history, claimed, excluded, |claimed|))
            == multiset(Visible(history, excluded, |history|))
  {
    SplitsVisible(history, claimed, excluded, |history|);
    var out, tail := Out(history, claimed, excluded, |history|), Tail(history, claimed, excluded, |claimed|);
    forall t ensures multiset(out)[t] == multiset(tail)[t] {
      OutHolds(history, claimed, excluded, |history|, t);
      TailHolds(history, claimed, excluded, |claimed|, t);
      if t.id in claimed { LastStands(claimed, t.id); }
    }
    assert multiset(out) == multiset(tail);
  }

  /** Each turn's id is among the first `i` claimed, and later turns were claimed later. */
  ghost predicate InClaimOrder(tail: seq<Turn>, claimed: seq<nat>, i: nat)
    requires i <= |claimed|
  {
    && (forall a | 0 <= a < |tail| :: tail[a].id in claimed[..i])
    && (forall a, b | 0 <= a < b < |tail| :: ClaimedEarlier(claimed, i, tail[a].id, tail[b].id))
  }

  ghost predicate ClaimedEarlier(claimed: seq<nat>, i: nat, x: nat, y: nat)
    requires i <= |claimed|
  {
    exists q | 0 <= q < i :: claimed[q] == y && x in claimed[..q]
  }

  /** The bound steers stand in admission order. */
  lemma {:induction false} TailInClaimOrder(history: seq<Turn>, claimed: seq<nat>, excluded: set<nat>, i: nat)
    requires i <= |claimed|
    ensures InClaimOrder(Tail(history, claimed, excluded, i), claimed, i)
  {
    if i > 0 {
      TailInClaimOrder(history, claimed, excluded, i - 1);
      var before, all := Tail(history, claimed, excluded, i - 1), Tail(history, claimed, excluded, i);
      if Binds(history, excluded, claimed[i - 1], |history|) { FirstIs(history, claimed[i - 1], |history|); }
      assert claimed[..i] == claimed[..i - 1] + [claimed[i - 1]];
      forall a, b | 0 <= a < b < |all| ensures ClaimedEarlier(claimed, i, all[a].id, all[b].id) {
        assert all[a] == before[a];
        if b < |before| {
          assert all[b] == before[b] && ClaimedEarlier(claimed, i - 1, before[a].id, before[b].id);
        } else {
          assert claimed[i - 1] == all[b].id && all[a].id in claimed[..i - 1];
        }
      }
    }
  }
}
