/** The attention drive's turns: whoever was picked longest ago goes first, so nobody eligible waits more than one round. */
module WakeRotation {
  import opened Types
  import opened State
  import opened Starting

  /** The turn each owing delegate was last picked in; zero when never. `last` is the latest turn handed out. */
  datatype Line = Line(turns: map<Id, nat>, last: nat)

  predicate Ahead(line: Line, i: Id, j: Id)
    requires i in line.turns && j in line.turns
  {
    line.turns[i] < line.turns[j] || (line.turns[i] == line.turns[j] && i < j)
  }

  ghost predicate FrontOf(line: Line, eligible: set<Id>, i: Id)
    requires eligible <= line.turns.Keys
  {
    i in eligible && forall j | j in eligible && j != i :: Ahead(line, i, j)
  }

  ghost predicate LineOk(line: Line) {
    forall i | i in line.turns :: line.turns[i] <= line.last
  }

  /** The scan for the front of the line. */
  method Front(line: Line, eligible: set<Id>) returns (i: Id)
    requires eligible != {} && eligible <= line.turns.Keys
    ensures FrontOf(line, eligible, i)
  {
    i :| i in eligible;
    var todo := eligible - {i};
    while todo != {}
      invariant todo <= eligible - {i} && i in eligible
      invariant forall j | j in eligible && j !in todo && j != i :: Ahead(line, i, j)
    {
      var j :| j in todo;
      todo := todo - {j};
      if Ahead(line, j, i) { i := j; }
    }
  }

  /** Taking its turn sends the delegate to the back. */
  function Picked(line: Line, i: Id): Line
    requires i in line.turns
  {
    Line(line.turns[i := line.last + 1], line.last + 1)
  }

  method SelectWake(line: Line, eligible: set<Id>) returns (i: Id, next: Line)
    requires LineOk(line) && eligible != {} && eligible <= line.turns.Keys
    ensures FrontOf(line, eligible, i) && next == Picked(line, i) && LineOk(next)
  {
    i := Front(line, eligible);
    next := Line(line.turns[i := line.last + 1], line.last + 1);
  }

  // ---- Who is eligible ----

  predicate ResidentRuntime(s: State, i: Id) {
    && i in s.store.durable && s.store.durable[i].phase != Closed && s.store.durable[i].pendingStop == 0
    && i in s.runs.live && s.runs.live[i].runtime != 0
  }

  /** A cold restore can make the owner chain resident from `p` up. */
  predicate ChainRestorable(s: State, p: Id)
    decreases if p in s.store.durable then s.store.durable[p].born + 1 else 0
  {
    || p == NO_ID || ResidentRuntime(s, p)
    || (IdleRestorable(s, p) &&
        (s.store.durable[p].parent == NO_ID
         || (s.store.durable[p].parent in s.store.durable && s.store.durable[s.store.durable[p].parent].born < s.store.durable[p].born
             && ChainRestorable(s, s.store.durable[p].parent))))
  }

  /** Owing a wake, idle and unclaimed but for an attention start, neither finalizing nor parked, beneath no fence, on a chain
      the restore can bring back. */
  predicate DriveCandidate(s: State, finalizing: set<Id>, parked: set<Id>, i: Id) {
    && WakesOf(s, i) != {} && WakeEligible(s, i) && i !in finalizing && i !in parked
    && (forall t | t in s.runs.reservations && s.runs.reservations[t].id == i :: s.runs.reservations[t].trigger == AttentionTrigger)
    && !Fenced(s.store.durable, s.store.durable[i].parent) && ChainRestorable(s, s.store.durable[i].parent)
  }

  /** A delegate that was never picked has turn zero. */
  function Seated(line: Line, ids: set<Id>): (r: Line)
    ensures r.last == line.last && r.turns.Keys == line.turns.Keys + ids
    ensures forall i | i in r.turns :: r.turns[i] == if i in line.turns then line.turns[i] else 0
  {
    Line(map i | i in line.turns.Keys + ids :: if i in line.turns then line.turns[i] else 0, line.last)
  }

  /** One selection over the controller's tables: nobody when nobody is eligible, else the front of the line, which goes to its back. */
  method SelectAttentionWake(s: State, line: Line, finalizing: set<Id>, parked: set<Id>) returns (pick: Option<Id>, next: Line)
    requires LineOk(line)
    ensures LineOk(next)
    ensures pick.None? <==> forall i | i in s.post.attention :: !DriveCandidate(s, finalizing, parked, i)
    ensures pick.None? ==> next == Seated(line, s.post.attention.Keys)
    ensures pick.Some? ==>
              && pick.value in s.post.attention && DriveCandidate(s, finalizing, parked, pick.value)
              && next == Picked(Seated(line, s.post.attention.Keys), pick.value)
              && forall j | j in s.post.attention && j != pick.value && DriveCandidate(s, finalizing, parked, j) ::
                   Ahead(Seated(line, s.post.attention.Keys), pick.value, j)
  {
    hide DriveCandidate;
    next := Seated(line, s.post.attention.Keys);
    var eligible, todo := {}, s.post.attention.Keys;
    while todo != {}
      invariant todo <= s.post.attention.Keys && eligible <= s.post.attention.Keys
      invariant forall i | i in s.post.attention && i !in todo :: i in eligible <==> DriveCandidate(s, finalizing, parked, i)
      invariant forall i | i in eligible :: i !in todo
    {
      var i :| i in todo;
      todo := todo - {i};
      if DriveCandidate(s, finalizing, parked, i) { eligible := eligible + {i}; }
    }
    if eligible == {} { return None, next; }
    var i;
    i, next := SelectWake(next, eligible);
    pick := Some(i);
  }

  // ---- Bounded waiting ----

  /** A history of selections over one set of owing delegates: who was eligible each time, and who was picked. */
  ghost predicate Selections(line: Line, eligible: seq<set<Id>>, picks: seq<Id>)
    decreases |picks|
  {
    && |eligible| == |picks|
    && (picks != [] ==>
          && eligible[0] <= line.turns.Keys && FrontOf(line, eligible[0], picks[0])
          && Selections(Picked(line, picks[0]), eligible[1..], picks[1..]))
  }

  /** Everyone already behind `d` stays behind it, and is not picked while `d` is eligible and passed over. */
  lemma {:induction false} BehindIsNotPicked(line: Line, eligible: seq<set<Id>>, picks: seq<Id>, d: Id, i: Id)
    requires LineOk(line) && Selections(line, eligible, picks) && d in line.turns && d !in picks
    requires forall k | 0 <= k < |eligible| :: d in eligible[k]
    requires i in line.turns && i != d && Ahead(line, d, i)
    ensures i !in picks
    decreases |picks|
  {
    if picks != [] {
      assert picks[0] != i;
      var next := Picked(line, picks[0]);
      assert forall x | x in picks[1..] :: x in picks;
      BehindIsNotPicked(next, eligible[1..], picks[1..], d, i);
      assert picks == [picks[0]] + picks[1..];
    }
  }

  /** No delegate is picked twice while an eligible one waits. */
  lemma {:induction false} PicksAreDistinct(line: Line, eligible: seq<set<Id>>, picks: seq<Id>, d: Id)
    requires LineOk(line) && Selections(line, eligible, picks) && d in line.turns && d !in picks
    requires forall k | 0 <= k < |eligible| :: d in eligible[k]
    ensures forall j, k | 0 <= j < k < |picks| :: picks[j] != picks[k]
    ensures forall k | 0 <= k < |picks| :: picks[k] in line.turns
    decreases |picks|
  {
    if picks != [] {
      var next := Picked(line, picks[0]);
      assert forall x | x in picks[1..] :: x in picks;
      assert Ahead(next, d, picks[0]);
      BehindIsNotPicked(next, eligible[1..], picks[1..], d, picks[0]);
      PicksAreDistinct(next, eligible[1..], picks[1..], d);
      assert picks == [picks[0]] + picks[1..];
    }
  }

  lemma {:induction false} DistinctFit(s: seq<Id>, room: set<Id>)
    requires (forall j, k | 0 <= j < k < |s| :: s[j] != s[k]) && (forall k | 0 <= k < |s| :: s[k] in room)
    ensures |s| <= |room|
  {
    if s != [] {
      var last := s[|s| - 1];
      DistinctFit(s[..|s| - 1], room - {last});
    }
  }

  /** Over as many consecutive selections as there are owing delegates, one that is eligible each time is picked. */
  lemma NobodyWaitsARound(line: Line, eligible: seq<set<Id>>, picks: seq<Id>, d: Id)
    requires LineOk(line) && Selections(line, eligible, picks) && d in line.turns
    requires |picks| >= |line.turns| && forall k | 0 <= k < |eligible| :: d in eligible[k]
    ensures d in picks
  {
    if d !in picks {
      PicksAreDistinct(line, eligible, picks, d);
      DistinctFit(picks, line.turns.Keys - {d});
    }
  }
}
