/** Runs from an empty tree, each step computed, to a state where a promised property does not hold. */
module FailingRuns {
  import opened Types
  import opened Tree
  import opened Journal
  import opened JournalLaws
  import opened State
  import opened Settle
  import opened Finishing
  import opened Starting
  import opened Delivering
  import opened Machine
  import opened Effects
  import opened Invariants
  import opened Exclusive
  import opened Carriers
  import opened Safety
  import opened Takeover
  import opened Scenarios
  import opened Stopping

  // ---- A delivery with two holders: the child runs twice more, each time with a caller waiting, and fails ----

  const KIDS: Index := map[1 := {2}]

  function Due(generation: nat): Pending {
    Pending(Report(2, generation), generation, 1, LOSS)
  }

  /** The child after its `generation`-th failure. */
  function IdleChild(generation: nat, trigger: Trigger, queue: seq<Pending>): Aggregate {
    Aggregate(1, 3, generation, trigger, Idle, false, None, true, Some(Outcome(Failed, NoReason, 0, None)), queue, 0)
  }

  function RunningChild(generation: nat, queue: seq<Pending>): Aggregate {
    Aggregate(1, 3, generation, OwnerInput, Running, true, None, true, Some(Outcome(Failed, NoReason, 0, None)), queue, 0)
  }

  function WaitingChild(waiters: map<nat, Token>): Live {
    NO_LIVE.(waiters := waiters)
  }

  function BoundChild(generation: nat, waiters: map<nat, Token>): Live {
    NO_LIVE.(waiters := waiters, binding := Some(Binding(Lease(2, generation), 0, false, 0, DUE)))
  }

  function Owner(generation: nat, waiter: Token): Reservation {
    Reservation(2, generation, OwnerInput, false, 1, 0, waiter)
  }

  /** The tables while the parent runs: its child's record and runtime, one reservation at most, and the waiters. */
  function Midway(journal: seq<Event>, child: Aggregate, live: Live, res: map<Token, Reservation>, turns: nat, waiters: map<Token, WaiterState>, next: Token): State {
    Plain(Store(journal, map[1 := RUNNING, 2 := child], KIDS), Runs(map[1 := ParentLive(7, true, 0), 2 := live], res, map[], turns, 0, {}),
          Post(map[], map[], map[], waiters, map[]), None, next)
  }

  lemma Eight()
    ensures S8 == Midway(BOTH + FailureEvents(CHILD), IdleChild(1, InitialTrigger, [Due(1)]), NO_LIVE, map[], 1, map[], 3)
  {
    assert ENDED.queue == [Due(1)];
  }

  /** One more run of the child: reserved, awaited, committed, failed. */
  lemma Reserves(journal: seq<Event>, child: Aggregate, live: Live, waiters: map<Token, WaiterState>, next: Token)
    requires child == IdleChild(child.generation, child.trigger, child.queue) && live == WaitingChild(live.waiters)
    ensures ReserveStart(Midway(journal, child, live, map[], 1, waiters, next), Some(PARENT), 2) ==
            Midway(journal, child, live, map[next + 1 := Owner(child.generation + 1, 0)], 2, waiters, next + 1)
  {
    var s := Midway(journal, child, live, map[], 1, waiters, next);
    assert Admitted(s, PARENT) && Authorized(s, Some(PARENT), 2) && IdleRestorable(s, 2);
    hide Admitted, Authorized, IdleRestorable;
  }

  lemma Awaits(journal: seq<Event>, child: Aggregate, live: Live, waiters: map<Token, WaiterState>, t: Token, g: nat)
    ensures RegisterWaiter(Midway(journal, child, live, map[t := Owner(g, 0)], 2, waiters, t), t) ==
            Midway(journal, child, live, map[t := Owner(g, t + 1)], 2, waiters[t + 1 := Reserved(t)], t + 1)
  {
    assert map[t := Owner(g, 0)][t := Owner(g, t + 1)] == map[t := Owner(g, t + 1)];
  }

  lemma StartsAgain(s: State, child: Aggregate, g: nat, t: Token)
    requires s.store.durable == map[1 := RUNNING, 2 := child] && child == IdleChild(child.generation, child.trigger, child.queue) && g == child.generation + 1
    ensures Append(s, StartEvents(Owner(g, t + 1)), true) ==
            Some(s.(store := s.store.(journal := s.store.journal + [RunStarted(2, g, OwnerInput)], durable := map[1 := RUNNING, 2 := RunningChild(g, child.queue)])))
  {
    var e := RunStarted(2, g, OwnerInput);
    assert StartEvents(Owner(g, t + 1)) == [e];
    OneEvent(s.store.durable, |s.store.journal|, e);
    assert Apply(s.store.durable, |s.store.journal| + 1, e).value == map[1 := RUNNING, 2 := RunningChild(g, child.queue)];
    hide ApplyBatch;
  }

  lemma Unrefused(journal: seq<Event>, child: Aggregate, live: Live, waiters: map<Token, WaiterState>, t: Token, g: nat)
    requires child == IdleChild(child.generation, child.trigger, child.queue) && live == WaitingChild(live.waiters) && g == child.generation + 1
    requires g !in live.waiters
    ensures !CommitRefused(Midway(journal, child, live, map[t := Owner(g, t + 1)], 2, waiters, t + 1), Owner(g, t + 1), false)
  {
  }

  /** A restart nothing refuses, as its state. */
  lemma CommitsRestart(s: State, t: Token, r: Reservation, next: State)
    requires t in s.runs.reservations && s.runs.reservations[t] == r && !r.create && r.trigger != AttentionTrigger && !CommitRefused(s, r, false)
    requires Append(s, StartEvents(r), true) == Some(next) && r.id in s.runs.live
    ensures CommitStart(s, t, false, {}, true) ==
            s.(store := s.store.(journal := next.store.journal, durable := next.store.durable),
               runs := s.runs.(reservations := s.runs.reservations - {t}, live := s.runs.live[r.id := StartedLive(s.runs.live[r.id], r)]),
               stop := UntrackStart(s.stop, t),
               post := s.post.(waiters := Moved(s.post.waiters, r.waiter, Registered(r.id, r.generation))))
  {
    hide Append, CommitRefused, StartEvents, StartedLive, UntrackStart, Moved;
  }

  lemma Commits(journal: seq<Event>, child: Aggregate, live: Live, waiters: map<Token, WaiterState>, t: Token, g: nat)
    requires child == IdleChild(child.generation, child.trigger, child.queue) && live == WaitingChild(live.waiters) && g == child.generation + 1
    requires g !in live.waiters && t + 1 in waiters
    ensures CommitStart(Midway(journal, child, live, map[t := Owner(g, t + 1)], 2, waiters, t + 1), t, false, {}, true) ==
            Midway(journal + [RunStarted(2, g, OwnerInput)], RunningChild(g, child.queue), BoundChild(g, live.waiters[g := t + 1]), map[], 2,
                   waiters[t + 1 := Registered(2, g)], t + 1)
  {
    var s := Midway(journal, child, live, map[t := Owner(g, t + 1)], 2, waiters, t + 1);
    var next := s.(store := s.store.(journal := journal + [RunStarted(2, g, OwnerInput)], durable := map[1 := RUNNING, 2 := RunningChild(g, child.queue)]));
    StartsAgain(s, child, g, t);
    Unrefused(journal, child, live, waiters, t, g);
    assert StartedLive(live, Owner(g, t + 1)) == BoundChild(g, live.waiters[g := t + 1]);
    hide Append, CommitRefused, StartEvents, CommitStart, StartedLive, BoundChild, RunningChild, IdleChild;
    CommitsRestart(s, t, Owner(g, t + 1), next);
    assert s.runs.reservations - {t} == map[];
    assert s.runs.live[2 := BoundChild(g, live.waiters[g := t + 1])] == map[1 := ParentLive(7, true, 0), 2 := BoundChild(g, live.waiters[g := t + 1])];
  }

  lemma Fails(journal: seq<Event>, queue: seq<Pending>, live: Live, waiters: map<Token, WaiterState>, next: Token, g: nat)
    requires live == BoundChild(g, live.waiters) && !Queued(queue, Report(2, g))
    ensures FailCommitted(Midway(journal, RunningChild(g, queue), live, map[], 2, waiters, next), Lease(2, g), NO_FINISH, false, 0, 0, true) ==
            Midway(journal + FailureEvents(Lease(2, g)), IdleChild(g, OwnerInput, queue + [Due(g)]), WaitingChild(live.waiters), map[], 1, waiters, next)
  {
    var s := Midway(journal, RunningChild(g, queue), live, map[], 2, waiters, next);
    FailsQuietly(s, Lease(2, g));
    assert Broken(RunningChild(g, queue), 2) == IdleChild(g, OwnerInput, queue + [Due(g)]);
    assert Unbound(live) == WaitingChild(live.waiters);
    hide FailCommitted, FailureEvents, Broken, Unbound;
    assert s.store.durable[2 := Broken(RunningChild(g, queue), 2)] == map[1 := RUNNING, 2 := IdleChild(g, OwnerInput, queue + [Due(g)])];
    assert s.runs.live[2 := WaitingChild(live.waiters)] == map[1 := ParentLive(7, true, 0), 2 := WaitingChild(live.waiters)];
    assert s.runs.inputs - {0} == map[];
  }

  function Again(next: Token, g: nat): seq<Step> {
    [Starts(DoReserveStart(Some(PARENT), 2)), Starts(DoRegisterWaiter(next + 1))]
    + [Starts(DoCommitStart(next + 1, false, {}, true)), Starts(DoFailCommitted(Lease(2, g), NO_FINISH, false, 0, 0, true))]
  }

  /** The starting steps, as the functions they run. */
  lemma ByFunctions(s: State, t: Token, l: Lease)
    ensures NextStart(s, DoReserveStart(Some(PARENT), 2)) == ReserveStart(s, Some(PARENT), 2)
    ensures NextStart(s, DoRegisterWaiter(t)) == RegisterWaiter(s, t)
    ensures NextStart(s, DoCommitStart(t, false, {}, true)) == CommitStart(s, t, false, {}, true)
    ensures NextStart(s, DoFailCommitted(l, NO_FINISH, false, 0, 0, true)) == FailCommitted(s, l, NO_FINISH, false, 0, 0, true)
    ensures NextStart(s, DoAbortStart(t)) == ReleaseReservation(s, t)
    ensures NextStart(s, DoReserveAttention(1, 7, 1)) == ReserveAttention(s, 1, 7, 1)
  {
    hide ReserveCreate, ReserveStart, ReserveAttention, ReserveOwedAttention, RegisterWaiter, ReleaseReservation, CommitStart, AttachRuntime, AttachIdleRuntime,
         BeginStartInput, CompleteStartInput, FailCommitted;
  }

  /** The child may run once more. */
  predicate MayRunAgain(child: Aggregate, live: Live, g: nat) {
    && child == IdleChild(child.generation, child.trigger, child.queue) && live == WaitingChild(live.waiters) && g == child.generation + 1
    && g !in live.waiters && !Queued(child.queue, Report(2, g))
  }

  function Before(journal: seq<Event>, child: Aggregate, live: Live, waiters: map<Token, WaiterState>, next: Token): State {
    Midway(journal, child, live, map[], 1, waiters, next)
  }

  function RanAgain(journal: seq<Event>, child: Aggregate, live: Live, waiters: map<Token, WaiterState>, next: Token, g: nat): State {
    Midway(journal + [RunStarted(2, g, OwnerInput)] + FailureEvents(Lease(2, g)), IdleChild(g, OwnerInput, child.queue + [Due(g)]),
           WaitingChild(live.waiters[g := next + 2]), map[], 1, waiters[next + 2 := Registered(2, g)], next + 2)
  }

  lemma RunsAgain(steps: seq<Step>, journal: seq<Event>, child: Aggregate, live: Live, waiters: map<Token, WaiterState>, next: Token, g: nat)
    requires Reaches(steps, Before(journal, child, live, waiters, next))
    requires MayRunAgain(child, live, g)
    ensures Reaches(steps + Again(next, g), RanAgain(journal, child, live, waiters, next, g))
  {
    hide Reaches, NextStart, ReserveStart, RegisterWaiter, CommitStart, FailCommitted, Midway, IdleChild, RunningChild, FailureEvents, Queued;
    var t := next + 1;
    var a := Midway(journal, child, live, map[], 1, waiters, next);
    var b := Midway(journal, child, live, map[t := Owner(g, 0)], 2, waiters, t);
    var c := Midway(journal, child, live, map[t := Owner(g, t + 1)], 2, waiters[t + 1 := Reserved(t)], t + 1);
    var w := waiters[t + 1 := Registered(2, g)];
    assert waiters[t + 1 := Reserved(t)][t + 1 := Registered(2, g)] == w;
    var bound := BoundChild(g, live.waiters[g := t + 1]);
    var e := Midway(journal + [RunStarted(2, g, OwnerInput)], RunningChild(g, child.queue), bound, map[], 2, w, t + 1);
    Reserves(journal, child, live, waiters, next);
    Awaits(journal, child, live, waiters, t, g);
    Commits(journal, child, live, waiters[t + 1 := Reserved(t)], t, g);
    Fails(journal + [RunStarted(2, g, OwnerInput)], child.queue, bound, w, t + 1, g);
    ByFunctions(a, t, Lease(2, g));
    ByFunctions(b, t, Lease(2, g));
    ByFunctions(c, t, Lease(2, g));
    ByFunctions(e, t, Lease(2, g));
    FollowStarts(steps, a, DoReserveStart(Some(PARENT), 2), b, DoRegisterWaiter(t), c);
    FollowStarts(steps + [Starts(DoReserveStart(Some(PARENT), 2)), Starts(DoRegisterWaiter(t))], c, DoCommitStart(t, false, {}, true), e,
                 DoFailCommitted(Lease(2, g), NO_FINISH, false, 0, 0, true),
                 FailCommitted(e, Lease(2, g), NO_FINISH, false, 0, 0, true));
    assert steps + [Starts(DoReserveStart(Some(PARENT), 2)), Starts(DoRegisterWaiter(t))]
           + [Starts(DoCommitStart(t, false, {}, true)), Starts(DoFailCommitted(Lease(2, g), NO_FINISH, false, 0, 0, true))] == steps + Again(next, g);
  }

  const QUEUE: seq<Pending> := [Due(1), Due(2), Due(3)]
  const QUEUED := IdleChild(3, OwnerInput, QUEUE)
  const J12: seq<Event> := BOTH + FailureEvents(CHILD) + [RunStarted(2, 2, OwnerInput)] + FailureEvents(Lease(2, 2))
  const J16: seq<Event> := J12 + [RunStarted(2, 3, OwnerInput)] + FailureEvents(Lease(2, 3))
  const TWO: map<Token, WaiterState> := map[5 := Registered(2, 2), 7 := Registered(2, 3)]
  const T16 := Midway(J16, QUEUED, WaitingChild(map[2 := 5, 3 := 7]), map[], 1, TWO, 7)
  const TO_TWELVE: seq<Step> := TO_EIGHT + Again(3, 2)
  const TO_SIXTEEN: seq<Step> := TO_TWELVE + Again(5, 3)
  const ONE: map<Token, WaiterState> := map[5 := Registered(2, 2)]
  const AFTER_TWO := IdleChild(2, OwnerInput, [Due(1), Due(2)])
  const T12 := Midway(J12, AFTER_TWO, WaitingChild(map[2 := 5]), map[], 1, ONE, 5)

  lemma SecondRun()
    ensures MayRunAgain(IdleChild(1, InitialTrigger, [Due(1)]), NO_LIVE, 2)
    ensures RanAgain(BOTH + FailureEvents(CHILD), IdleChild(1, InitialTrigger, [Due(1)]), NO_LIVE, map[], 3, 2) == T12
  {
    assert [Due(1)] + [Due(2)] == [Due(1), Due(2)];
    hide FailureEvents;
  }

  lemma ReachesTwelve()
    ensures Reaches(TO_TWELVE, T12)
  {
    hide Reaches, S8, Midway, FailureEvents, Again, MayRunAgain, RanAgain, T12, IdleChild;
    Eight();
    ReachesEight();
    SecondRun();
    RunsAgain(TO_EIGHT, BOTH + FailureEvents(CHILD), IdleChild(1, InitialTrigger, [Due(1)]), NO_LIVE, map[], 3, 2);
  }

  lemma ThirdRun()
    ensures MayRunAgain(AFTER_TWO, WaitingChild(map[2 := 5]), 3)
    ensures RanAgain(J12, AFTER_TWO, WaitingChild(map[2 := 5]), ONE, 5, 3) == T16
  {
    assert [Due(1), Due(2)] + [Due(3)] == QUEUE;
    assert map[2 := 5][3 := 7] == map[2 := 5, 3 := 7] && ONE[7 := Registered(2, 3)] == TWO;
    hide FailureEvents, J12;
  }

  lemma ReachesSixteen()
    ensures Reaches(TO_SIXTEEN, T16)
  {
    ReachesTwelve();
    hide Reaches, FailureEvents, Again, MayRunAgain, RanAgain, J12, AFTER_TWO, T16, TO_TWELVE;
    ThirdRun();
    RunsAgain(TO_TWELVE, J12, AFTER_TWO, WaitingChild(map[2 := 5]), ONE, 5, 3);
  }

  // ---- The parent ends, and starts on an attention ----

  const RESTING := NO_LIVE.(runtime := 7)
  const IDLE_PARENT := Broken(RUNNING, 1)
  const J17: seq<Event> := J16 + FailureEvents(PARENT)
  const WAKING := Reservation(1, 2, AttentionTrigger, false, NO_ID, 7, 0)

  /** The tables once the parent is idle: reservations, its child's waiters, and the deliveries. */
  function Later(res: map<Token, Reservation>, drives: nat, left: map<nat, Token>, post: Post, next: Token): State {
    Plain(Store(J17, map[1 := IDLE_PARENT, 2 := QUEUED], KIDS), Runs(map[1 := RESTING, 2 := WaitingChild(left)], res, map[], 0, drives, {}), post, None, next)
  }

  const T17 := Later(map[], 0, map[2 := 5, 3 := 7], Post(map[], map[], map[], TWO, map[]), 7)
  const T18 := Later(map[8 := WAKING], 1, map[2 := 5, 3 := 7], Post(map[], map[], map[], TWO, map[]), 8)

  lemma ParentEnds()
    ensures Append(T16, FailureEvents(PARENT), true) == Some(T16.(store := T17.store)) && RunningEvents(PARENT, NO_FINISH, 0) == FailureEvents(PARENT)
  {
    FailsRun(T16.store.durable, |J16|, PARENT);
    assert T16.store.durable[1 := IDLE_PARENT] == T17.store.durable;
    hide ApplyBatch, FailureEvents, RunningEvents, Broken, J16;
  }

  lemma ParentFinishable()
    ensures Finishable(T16, PARENT) && T16.store.durable[1].phase == Running
  {
    hide J16, QUEUED;
  }

  lemma ParentReleased()
    ensures ReleaseGeneration(T16.(store := T17.store), PARENT) == T17
  {
    var mid := T16.(store := T17.store);
    assert IDLE_PARENT.trigger != AttentionTrigger;
    hide J16, J17, QUEUED, IDLE_PARENT;
    assert LeaseAt(mid.runs.live, 1) == Some(PARENT);
    assert Unbound(ParentLive(7, true, 0)) == RESTING;
    hide ReleaseGeneration, Unbound;
    ReleasesQuietly(mid, PARENT);
    assert mid.runs.live[1 := RESTING] == T17.runs.live;
    assert mid.runs.inputs - {0} == map[];
  }

  lemma Step17()
    ensures FinishGeneration(T16, PARENT, NO_FINISH, false, 0, true) == T17
  {
    ParentEnds();
    ParentFinishable();
    ParentReleased();
    hide FinishGeneration, ReleaseGeneration, Append, RunningEvents, FailureEvents, T16, T17, Finishable;
    FinishesQuietly(T16, PARENT, FailureEvents(PARENT), T16.(store := T17.store));
  }

  lemma Step18()
    ensures ReserveAttention(T17, 1, 7, 1) == T18
  {
    hide J17;
  }

  // ---- The head is planned and held; a carrier is planned over it, refused and held too ----

  const HEAD := Parcel(Report(2, 1), 2, 1, LOSS, 0, 0, false, false, false, [], 0)
  const CARRIER := Parcel(Report(2, 3), 2, 1, LOSS, 7, 7, false, false, false, [Due(1), Due(2)], 9)
  const REFUSED := CARRIER.(waiter := 0, refused := true)
  const HEAD_PLAN := Plan(Report(2, 1), 2, 1, LOSS, 0, 9, false, [], 0)
  const CARRIER_PLAN := Plan(Report(2, 3), 2, 1, LOSS, 7, 10, false, [Due(1), Due(2)], 9)
  const RETRY := CARRIER_PLAN.(waiter := 0)
  const CLAIMED: map<DeliveryId, Token> := map[Report(2, 1) := 10, Report(2, 3) := 10]
  const OWED: map<Token, WaiterState> := map[5 := Registered(2, 2), 7 := Owed]
  const T19 := Later(map[8 := WAKING], 1, map[2 := 5, 3 := 7], Post(map[], map[Report(2, 1) := 9], map[9 := HEAD], TWO, map[]), 9)
  const T20 := Later(map[8 := WAKING], 1, map[2 := 5, 3 := 7], Post(map[], map[Report(2, 1) := 9], map[9 := HEAD.(held := true)], TWO, map[]), 9)
  const T21 := Later(map[8 := WAKING], 1, map[2 := 5],
                     Post(map[], CLAIMED, map[9 := HEAD.(held := true), 10 := CARRIER], map[5 := Registered(2, 2), 7 := Claimed(10)], map[]), 10)
  const T22 := Later(map[8 := WAKING], 1, map[2 := 5], Post(map[], CLAIMED, map[9 := HEAD.(held := true), 10 := REFUSED], OWED, map[]), 10)
  const T23 := Later(map[8 := WAKING], 1, map[2 := 5], Post(map[], CLAIMED, map[9 := HEAD.(held := true), 10 := REFUSED.(held := true)], OWED, map[]), 10)
  const T24 := Later(map[], 0, map[2 := 5], Post(map[], CLAIMED, map[9 := HEAD.(held := true), 10 := REFUSED.(held := true)], OWED, map[]), 10)

  lemma Indices()
    ensures IndexIn(QUEUE, Report(2, 1)) == 0 && IndexIn(QUEUE, Report(2, 2)) == 1 && IndexIn(QUEUE, Report(2, 3)) == 2
    ensures QUEUE[..0] == [] && QUEUE[..1] == [Due(1)] && QUEUE[..2] == [Due(1), Due(2)]
  {
  }

  lemma Step19()
    ensures PlanDelivery(T18, 2, Report(2, 1)) == T19
  {
    Indices();
    assert Plannable(T18, 2, Report(2, 1));
    hide Plannable, IndexIn, J17, QUEUE, IDLE_PARENT;
  }

  lemma Step20()
    ensures HoldClaim(T19, HEAD_PLAN) == T20
  {
    assert Genuine(T19, HEAD_PLAN);
    assert map[9 := HEAD][9 := HEAD.(held := true)] == map[9 := HEAD.(held := true)];
    hide Genuine, J17, IDLE_PARENT;
  }

  lemma ParentRests()
    ensures IDLE_PARENT.pendingStop == 0 && IDLE_PARENT.phase == Idle
  {
  }

  lemma Carries()
    ensures Plannable(T20, 2, Report(2, 3))
  {
    Indices();
    ParentRests();
    hide J17, IDLE_PARENT, IndexIn;
    assert T20.store.durable[2].queue == QUEUE;
    assert !DeliveryStopped(T20, 2, 1) && ReceiverOf(T20, 1) == Warm;
    assert Carriable(T20, 2, QUEUE, 2);
    hide DeliveryStopped, ReceiverOf, Carriable;
  }

  lemma CarrierPlanned()
    requires Plannable(T20, 2, Report(2, 3))
    ensures PlannedParcel(T20, 2, Report(2, 3)) == CARRIER
  {
    Indices();
    ParentRests();
    assert ReceiverOf(T20, 1) == Warm;
    hide J17, IDLE_PARENT, IndexIn, Plannable, ReceiverOf;
  }

  lemma Step21()
    ensures PlanDelivery(T20, 2, Report(2, 3)) == T21
  {
    Indices();
    Carries();
    CarrierPlanned();
    assert map[2 := 5, 3 := 7] - {3} == map[2 := 5];
    assert Unregister(T20.runs.live, 2, 3) == T21.runs.live;
    hide Plannable, PlannedParcel, IndexIn, J17, IDLE_PARENT, Unregister;
    assert map[Report(2, 1) := 9][Report(2, 3) := 10][Report(2, 1) := 10] == CLAIMED;
    assert T20.post.parcels[10 := CARRIER] == T21.post.parcels;
    assert TWO[7 := Claimed(10)] == T21.post.waiters;
  }

  lemma CarrierIsCurrent()
    ensures Genuine(T21, CARRIER_PLAN) && PlanCurrent(T21, CARRIER_PLAN) && !HasReceipt(T21, Report(2, 3))
  {
    Indices();
    hide J17, IDLE_PARENT, IndexIn;
  }

  /** A delivery refused because its owner is starting on an attention, as its state. */
  lemma RefusesForNow(s: State, p: Plan)
    requires Genuine(s, p) && PlanCurrent(s, p) && !HasReceipt(s, p.did) && p.owner != NO_ID
    requires !DeliveryStopped(s, p.delegate, p.owner) && AttentionReserved(s, p.owner)
    ensures p.claim in s.post.parcels
    ensures BeginDelivery(s, p) ==
            HandOver(s.(post := s.post.(parcels := s.post.parcels[p.claim := s.post.parcels[p.claim].(waiter := 0, refused := true)])), p.waiter)
  {
    assert p.claim in s.post.parcels;
    hide Genuine, PlanCurrent, HasReceipt, DeliveryStopped, AttentionReserved, HandOver, Admit, RefuseCarrier;
  }

  lemma Step22()
    ensures BeginDelivery(T21, CARRIER_PLAN) == T22
  {
    CarrierIsCurrent();
    assert T21.runs.reservations[8] == WAKING;
    assert !DeliveryStopped(T21, 2, 1) && AttentionReserved(T21, 1);
    hide BeginDelivery, Genuine, PlanCurrent, HasReceipt, DeliveryStopped, AttentionReserved, J17, IDLE_PARENT, QUEUED;
    RefusesForNow(T21, CARRIER_PLAN);
    assert T21.post.parcels[10 := REFUSED] == T22.post.parcels;
    assert T21.post.waiters[7 := Owed] == OWED;
  }

  lemma Step23()
    ensures HoldClaim(T22, RETRY) == T23
  {
    assert Genuine(T22, RETRY);
    hide Genuine, J17, IDLE_PARENT, QUEUED;
    assert T22.post.parcels[10 := REFUSED.(held := true)] == T23.post.parcels;
  }

  lemma Step24()
    ensures ReleaseReservation(T23, 8) == T24
  {
    hide J17, IDLE_PARENT, QUEUED;
    assert T23.runs.reservations - {8} == map[];
  }

  // ---- The run ----

  const TO_EIGHTEEN: seq<Step> := TO_SIXTEEN + [Finishes(DoFinishGeneration(PARENT, NO_FINISH, 0, true))] + [Starts(DoReserveAttention(1, 7, 1))]
  const TO_TWENTY: seq<Step> := TO_EIGHTEEN + [Delivers(DoPlanDelivery(2, Report(2, 1)))] + [Delivers(DoHoldClaim(HEAD_PLAN))]
  const TO_TWENTYTWO: seq<Step> := TO_TWENTY + [Delivers(DoPlanDelivery(2, Report(2, 3)))] + [Delivers(DoBeginDelivery(CARRIER_PLAN))]
  const TO_TWENTYFOUR: seq<Step> := TO_TWENTYTWO + [Delivers(DoHoldClaim(RETRY))] + [Starts(DoAbortStart(8))]

  lemma OwnerSteps()
    ensures NextFinish(T16, DoFinishGeneration(PARENT, NO_FINISH, 0, true)) == T17
    ensures NextStart(T17, DoReserveAttention(1, 7, 1)) == T18 && NextStart(T23, DoAbortStart(8)) == T24
  {
    hide FinishGeneration, ReserveAttention, ReleaseReservation, NextStart;
    Step17();
    Step18();
    Step24();
    ByFunctions(T17, 8, PARENT);
    ByFunctions(T23, 8, PARENT);
  }

  lemma HeadSteps()
    ensures NextDeliver(T18, DoPlanDelivery(2, Report(2, 1))) == T19 && NextDeliver(T19, DoHoldClaim(HEAD_PLAN)) == T20
    ensures NextDeliver(T20, DoPlanDelivery(2, Report(2, 3))) == T21
  {
    hide PlanDelivery, HoldClaim;
    Step19();
    Step20();
    Step21();
  }

  lemma CarrierSteps()
    ensures NextDeliver(T21, DoBeginDelivery(CARRIER_PLAN)) == T22 && NextDeliver(T22, DoHoldClaim(RETRY)) == T23
  {
    hide BeginDelivery, HoldClaim;
    Step22();
    Step23();
  }

  lemma ReachesTwenty()
    ensures Reaches(TO_TWENTY, T20)
  {
    hide Reaches, NextStart, NextFinish, NextDeliver, T16, T17, T18, T19, T20, T21, T23, T24, TO_SIXTEEN;
    ReachesSixteen();
    OwnerSteps();
    HeadSteps();
    FollowFinish(TO_SIXTEEN, T16, DoFinishGeneration(PARENT, NO_FINISH, 0, true), T17);
    FollowStart(TO_SIXTEEN + [Finishes(DoFinishGeneration(PARENT, NO_FINISH, 0, true))], T17, DoReserveAttention(1, 7, 1), T18);
    FollowDelivery(TO_EIGHTEEN, T18, DoPlanDelivery(2, Report(2, 1)), T19);
    FollowDelivery(TO_EIGHTEEN + [Delivers(DoPlanDelivery(2, Report(2, 1)))], T19, DoHoldClaim(HEAD_PLAN), T20);
  }

  lemma ReachesTwentyFour()
    ensures Reaches(TO_TWENTYFOUR, T24)
  {
    hide Reaches, NextStart, NextFinish, NextDeliver, T16, T17, T18, T19, T20, T21, T22, T23, T24, TO_TWENTY;
    ReachesTwenty();
    OwnerSteps();
    HeadSteps();
    CarrierSteps();
    FollowDelivery(TO_TWENTY, T20, DoPlanDelivery(2, Report(2, 3)), T21);
    FollowDelivery(TO_TWENTY + [Delivers(DoPlanDelivery(2, Report(2, 3)))], T21, DoBeginDelivery(CARRIER_PLAN), T22);
    FollowDelivery(TO_TWENTYTWO, T22, DoHoldClaim(RETRY), T23);
    FollowStart(TO_TWENTYTWO + [Delivers(DoHoldClaim(RETRY))], T23, DoAbortStart(8), T24);
  }

  // ---- The takeover, and the delivery that breaks exclusivity ----

  /** The second report is planned over the held carrier, and the carrier is delivered after all. */
  const TO_TWENTYSIX: seq<Step> := TO_TWENTYFOUR + [Delivers(DoPlanDelivery(2, Report(2, 2)))] + [Delivers(DoBeginDelivery(RETRY))]

  lemma SecondMayCarry()
    ensures Plannable(T24, 2, Report(2, 2))
  {
    Indices();
    ParentRests();
    hide J17, IDLE_PARENT, IndexIn;
    assert T24.store.durable[2].queue == QUEUE;
    assert !DeliveryStopped(T24, 2, 1) && ReceiverOf(T24, 1) == Warm;
    assert Carriable(T24, 2, QUEUE, 1);
    hide DeliveryStopped, ReceiverOf, Carriable;
  }

  lemma MayTakeOver()
    ensures IndexIn(QUEUE, Report(2, 2)) > 0 && CarrierAhead(T24, 2) && !Overtaken(T24.post.parcels)
    ensures T24.store.durable[2].queue == QUEUE && T24.post.claims[QUEUE[0].did] == 10
  {
    Indices();
    hide J17, IDLE_PARENT, IndexIn;
  }

  /** What deliveries rest on in a reachable state. */
  ghost predicate Sound(s: State) {
    && DelivInv(s.post, s.store.durable) && CarryInv(s.post, s.runs.live, s.store.durable) && WellFormed(s.store.durable, |s.store.journal|)
    && Minted(s.post.parcels.Keys, s.nextToken) && Minted(s.post.receipts.Keys, s.nextToken)
  }

  lemma ReachedIsSound(steps: seq<Step>, s: State)
    requires Reaches(steps, s) && !Overtaken(s.post.parcels)
    ensures Sound(s)
  {
    hide Inv, Run, DelivInv, CarryInv, WellFormed, Minted, NoZeroWaiter, Overtaken;
    RunKeepsInv(LIMITS, steps);
    DeliveryParts(s);
    NotOvertaken(s);
  }

  lemma NotOvertaken(s: State)
    requires Inv(s) && !Overtaken(s.post.parcels)
    ensures DelivInv(s.post, s.store.durable)
  {
    hide CoreInv, StopAlwaysWins, CarryInv, NoStoppedClaim, DelivInv, Overtaken;
  }

  lemma NothingStops(n: State)
    requires n == PlanDelivery(T24, 2, Report(2, 2))
    ensures !DeliveryStopped(n, 2, 1) && !AttentionReserved(n, 1) && n.store == T24.store
    ensures 10 in n.post.parcels && n.post.parcels[10] == REFUSED.(held := true)
  {
    ParentRests();
    hide J17, IDLE_PARENT, IndexIn, Plannable, PlannedParcel, Unregister;
  }

  ghost predicate ClaimedAndReceived(s: State) {
    !OneHolder(s.post.claims, s.post.receipts)
  }

  lemma TwoHolders()
    requires Sound(T24)
    ensures ClaimedAndReceived(BeginDelivery(PlanDelivery(T24, 2, Report(2, 2)), RETRY))
  {
    MayTakeOver();
    SecondMayCarry();
    var n := PlanDelivery(T24, 2, Report(2, 2));
    NothingStops(n);
    hide DelivInv, CarryInv, WellFormed, Minted, Plannable, PlanDelivery, BeginDelivery, DeliveryStopped, AttentionReserved, IndexIn, CarrierAhead, OneHolder,
         J17, IDLE_PARENT, Overtaken;
    TakeoverBreaksExclusivity(T24, 2, Report(2, 2));
    assert RetriedPlan(n, 10) == RETRY;
  }

  /** Exclusive delivery fails where a refused carrier is held: a delivery ends up claimed and received at once. */
  lemma HeldCarrierBreaksExclusivity()
    ensures ClaimedAndReceived(Run(Init(LIMITS), TO_TWENTYSIX))
  {
    hide Reaches, T24, PlanDelivery, BeginDelivery, TO_TWENTYFOUR, NextDeliver, RETRY, Run, ClaimedAndReceived, Sound, Overtaken, Plannable, CarrierAhead;
    ReachesTwentyFour();
    MayTakeOver();
    ReachedIsSound(TO_TWENTYFOUR, T24);
    TwoHolders();
    var n := PlanDelivery(T24, 2, Report(2, 2));
    DeliveringIs(T24, n);
    FollowDelivery(TO_TWENTYFOUR, T24, DoPlanDelivery(2, Report(2, 2)), n);
    FollowDelivery(TO_TWENTYFOUR + [Delivers(DoPlanDelivery(2, Report(2, 2)))], n, DoBeginDelivery(RETRY), BeginDelivery(n, RETRY));
    ReachedIs(TO_TWENTYSIX, BeginDelivery(n, RETRY));
  }

  lemma ReachedIs(steps: seq<Step>, s: State)
    requires Reaches(steps, s)
    ensures Run(Init(LIMITS), steps) == s
  {
    hide Run;
  }

  lemma DeliveringIs(s: State, n: State)
    ensures NextDeliver(s, DoPlanDelivery(2, Report(2, 2))) == PlanDelivery(s, 2, Report(2, 2)) && NextDeliver(n, DoBeginDelivery(RETRY)) == BeginDelivery(n, RETRY)
  {
    hide PlanDelivery, BeginDelivery;
  }

  // ---- A dropped queue: the stop over parent and child, and its completion ----

  const STOP := StopState(7, 1, {1, 2}, {PARENT}, {}, {}, {}, {}, {}, {}, {}, {}, {})
  const MARKED: Durable := map[1 := Stop(RUNNING, 7), 2 := Stop(ENDED, 7)]
  const J9: seq<Event> := BOTH + FailureEvents(CHILD) + [StopRequested(1)]
  const U9 := Plain(Store(J9, MARKED, KIDS), Runs(map[1 := ParentLive(7, true, 0), 2 := NO_LIVE], map[], map[], 1, 0, {}), NO_POST, Some(STOP), 3)

  lemma MarksBoth()
    ensures Append(S8, [StopRequested(1)], true) == Some(S8.(store := S8.store.(journal := J9, durable := MARKED)))
  {
    var d := S8.store.durable;
    OneEvent(d, 6, StopRequested(1));
    var t := ShapeOf(d);
    assert HasParent(t, 2) && Under(t, t[2].parent, 1);
    assert Under(t, 1, 1) && Under(t, 2, 1);
    assert forall i | i in d :: d[i].pendingStop == 0;
    assert Apply(d, 7, StopRequested(1)).Some?;
    assert Apply(d, 7, StopRequested(1)).value == MARKED;
  }

  lemma Tracked()
    ensures Subtree(ShapeOf(S8.store.durable), 1) == {1, 2} && Snapshot(S8, 7, 1, {1, 2}) == STOP
  {
    var t := ShapeOf(S8.store.durable);
    assert HasParent(t, 2) && Under(t, t[2].parent, 1);
    assert ActiveIn(S8.runs.live, {1, 2}) == {PARENT} by { assert LeaseAt(S8.runs.live, 1) == Some(PARENT) && LeaseAt(S8.runs.live, 2).None?; }
  }

  lemma Step9()
    ensures StopSubtree(S8, None, 1, false, true) == U9
  {
    MarksBoth();
    Tracked();
    assert !AttentionBlocks(S8, {1, 2});
    var none: map<DeliveryId, Token> := map[];
    assert none - ClaimsIn(none, map[], {1, 2}) == none;
    assert OweAll(map[], WaitersIn(none, map[], {1, 2})) == map[];
    hide Append, Snapshot, Subtree, AttentionBlocks, ClaimsIn, OweAll, WaitersIn;
  }

  const STOPPED_OUT := Outcome(Stopped, StoppedByParent, 0, None)
  const STOPPED_PARENT := Stop(RUNNING, 7).(open := false, outcome := Some(STOPPED_OUT), queue := [Pending(Report(1, 1), 1, NO_ID, STOPPED)])
  const OVER: Durable := map[1 := STOPPED_PARENT, 2 := Stop(ENDED, 7)]
  const J10: seq<Event> := J9 + [StoppedFinishEvent(PARENT, None, 0)]
  const U10 := Plain(Store(J10, OVER, KIDS), Runs(map[1 := RESTING, 2 := NO_LIVE], map[], map[], 0, 0, {}), NO_POST, Some(STOP.(active := {})), 3)

  lemma EndsParent()
    ensures Append(U9, [StoppedFinishEvent(PARENT, None, 0)], true) == Some(U9.(store := U9.store.(journal := J10, durable := OVER)))
  {
    var e := StoppedFinishEvent(PARENT, None, 0);
    OneEvent(MARKED, 7, e);
    assert [] + [Pending(Report(1, 1), 1, NO_ID, STOPPED)] == [Pending(Report(1, 1), 1, NO_ID, STOPPED)];
    assert Apply(MARKED, 8, e).Some?;
    assert Apply(MARKED, 8, e).value == OVER;
  }

  lemma ParentFinishesStopped()
    ensures Finishable(U9, PARENT) && U9.store.durable[1].phase == Stopping
  {
    hide J9;
  }

  lemma ParentReleasedStopped()
    ensures ReleaseGeneration(U9.(store := U10.store), PARENT) == U10
  {
    var mid := U9.(store := U10.store);
    hide J10;
    assert LeaseAt(mid.runs.live, 1) == Some(PARENT) && mid.store.durable[1].trigger != AttentionTrigger;
    assert Unbound(ParentLive(7, true, 0)) == RESTING;
    hide ReleaseGeneration, Unbound, OVER;
    ReleasesQuietly(mid, PARENT);
    assert mid.runs.live[1 := RESTING] == U10.runs.live;
    assert mid.runs.inputs - {0} == map[] && STOP.active - {PARENT} == {};
  }

  lemma Step10()
    ensures FinishGeneration(U9, PARENT, NO_FINISH, false, 0, true) == U10
  {
    EndsParent();
    assert U9.(store := U9.store.(journal := J10, durable := OVER)) == U9.(store := U10.store);
    ParentFinishesStopped();
    ParentReleasedStopped();
    hide FinishGeneration, ReleaseGeneration, Append, StoppedFinishEvent, U9, U10, J10, OVER, Finishable;
    FinishesQuietly(U9, PARENT, [StoppedFinishEvent(PARENT, None, 0)], U9.(store := U10.store));
  }

  const RESTED_PARENT := RUNNING.(open := false, phase := Idle, outcome := Some(STOPPED_OUT), queue := [Pending(Report(1, 1), 1, NO_ID, STOPPED)])
  const IDLE_CHILD := ENDED.(queue := [])
  const CLEARED: Durable := map[1 := RESTED_PARENT, 2 := IDLE_CHILD]
  const DONE := StopCompleted(1, 7)
  const J11: seq<Event> := J10 + [DONE]
  const U11 := Plain(Store(J11, CLEARED, KIDS), Runs(map[1 := RESTING, 2 := NO_LIVE], map[], map[], 0, 0, {}), NO_POST, None, 3)

  lemma Completes()
    ensures StopMembers(OVER, 7) == {1, 2} && Apply(OVER, 9, DONE).Some?
  {
  }

  lemma AfterParent()
    ensures AfterStop(STOPPED_PARENT, {1, 2}, true) == RESTED_PARENT
  {
    KeepsAll(STOPPED_PARENT.queue, {1, 2}, NO_ID);
  }

  lemma AfterChild()
    ensures AfterStop(Stop(ENDED, 7), {1, 2}, true) == IDLE_CHILD
  {
    KeepsAll(ENDED.queue, {1, 2}, 1);
  }

  lemma DropsQueue()
    ensures Apply(OVER, 9, DONE) == Some(CLEARED)
  {
    Completes();
    AfterParent();
    AfterChild();
    assert OneStop(OVER);
    hide Apply, AfterStop, StopMembers, STOPPED_PARENT, ENDED, RESTED_PARENT, IDLE_CHILD;
    var d := Apply(OVER, 9, DONE).value;
    CompletionUnstops(OVER, 9, DONE, d);
    assert d == CLEARED;
  }

  lemma Step11()
    ensures CompleteStop(U10, true, true) == U11
  {
    DropsQueue();
    OneEvent(OVER, 8, DONE);
    hide Apply, ApplyBatch;
  }

  // ---- The child's second run, and its report ----

  const AGAIN := Reservation(2, 2, AttentionTrigger, false, 1, 0, 0)
  const U12 := Plain(Store(J11, CLEARED, KIDS), Runs(map[1 := RESTING, 2 := NO_LIVE], map[4 := AGAIN], map[], 0, 1, {}), NO_POST, None, 4)
  const SECOND := Lease(2, 2)
  const RERUN := IDLE_CHILD.(generation := 2, trigger := AttentionTrigger, phase := Running, open := true)
  const J13: seq<Event> := J11 + [RunStarted(2, 2, AttentionTrigger)]
  const WOKEN := NO_LIVE.(binding := Some(Binding(SECOND, 0, true, 0, Evidence(false, false, false, None))))
  const U13 := Plain(Store(J13, map[1 := RESTED_PARENT, 2 := RERUN], KIDS), Runs(map[1 := RESTING, 2 := WOKEN], map[], map[], 0, 1, {}), NO_POST, None, 4)

  lemma Step12()
    ensures ReserveOwedAttention(U11, 2, 1, 2) == U12
  {
  }

  lemma Restarts()
    ensures Append(U12, StartEvents(AGAIN), true) == Some(U12.(store := U12.store.(journal := J13, durable := U13.store.durable)))
  {
    var e := RunStarted(2, 2, AttentionTrigger);
    assert StartEvents(AGAIN) == [e];
    OneEvent(CLEARED, 9, e);
    assert Apply(CLEARED, 10, e).Some?;
    assert Apply(CLEARED, 10, e).value == U13.store.durable;
  }

  lemma DriveUnrefused()
    ensures !CommitRefused(U12, AGAIN, false)
  {
  }

  lemma Step13()
    ensures CommitStart(U12, 4, false, {}, true) == U13
  {
    Restarts();
    DriveUnrefused();
    hide Append, CommitRefused, StartEvents;
    assert U12.runs.reservations - {4} == map[];
    assert U12.runs.live[2 := WOKEN] == U13.runs.live;
    assert U12.post.attention - {2} == map[];
  }

  const REPORTED := Broken(RERUN, 2)
  const J14: seq<Event> := J13 + FailureEvents(SECOND)
  const AT_REST := Runs(map[1 := RESTING, 2 := NO_LIVE], map[], map[], 0, 0, {})
  const U14 := Plain(Store(J14, map[1 := RESTED_PARENT, 2 := REPORTED], KIDS), AT_REST, NO_POST, None, 4)

  lemma Reports()
    ensures Append(U13, FailureEvents(SECOND), true) == Some(U13.(store := U14.store)) && RunningEvents(SECOND, NO_FINISH, 0) == FailureEvents(SECOND)
  {
    FailsRun(U13.store.durable, 10, SECOND);
    assert U13.store.durable[2 := REPORTED] == U14.store.durable;
    hide ApplyBatch, FailureEvents, RunningEvents, Broken;
  }

  lemma SecondFinishable()
    ensures Finishable(U13, SECOND) && U13.store.durable[2].phase == Running
  {
    hide J13, RESTED_PARENT;
  }

  lemma SecondReleased()
    ensures ReleaseGeneration(U13.(store := U14.store), SECOND) == U14
  {
    var mid := U13.(store := U14.store);
    assert REPORTED.trigger == AttentionTrigger;
    hide J14, REPORTED, RESTED_PARENT;
    assert LeaseAt(mid.runs.live, 2) == Some(SECOND);
    assert Unbound(WOKEN) == NO_LIVE;
    hide ReleaseGeneration, Unbound;
    ReleasesQuietly(mid, SECOND);
    assert mid.runs.live[2 := NO_LIVE] == U14.runs.live;
    assert mid.runs.inputs - {0} == map[];
  }

  lemma Step14()
    ensures FinishGeneration(U13, SECOND, NO_FINISH, false, 0, true) == U14
  {
    Reports();
    SecondFinishable();
    SecondReleased();
    hide FinishGeneration, ReleaseGeneration, Append, RunningEvents, FailureEvents, U13, U14, Finishable;
    FinishesQuietly(U13, SECOND, FailureEvents(SECOND), U13.(store := U14.store));
  }

  // ---- Its delivery ----

  const DID := Report(2, 2)
  const PARCEL := Parcel(DID, 2, 1, LOSS, 0, 0, false, false, false, [], 0)
  const PLAN := Plan(DID, 2, 1, LOSS, 0, 5, false, [], 0)
  const RECEIPT := Receipt(DID, 2, 1, 5, false, false, false, 0)
  const U15 := Plain(Store(J14, map[1 := RESTED_PARENT, 2 := REPORTED], KIDS), AT_REST, Post(map[], map[DID := 5], map[5 := PARCEL], map[], map[]), None, 5)
  const U16 := Plain(Store(J14, map[1 := RESTED_PARENT, 2 := REPORTED], KIDS), AT_REST, Post(map[6 := RECEIPT], map[], map[5 := PARCEL], map[], map[]), None, 6)
  const ACK := DeliveryAcknowledged(2, DID)
  const J_ACKED: seq<Event> := J14 + [ACK]
  const U17 := Plain(Store(J_ACKED, map[1 := RESTED_PARENT, 2 := REPORTED.(queue := [])], KIDS), AT_REST,
                     Post(map[], map[], map[5 := PARCEL], map[], map[]), None, 6)

  lemma Queue()
    ensures REPORTED.queue == [Pending(DID, 2, 1, LOSS)]
  {
  }

  lemma Step15()
    ensures PlanDelivery(U14, 2, DID) == U15
  {
    Queue();
    assert IndexIn(REPORTED.queue, DID) == 0;
    assert REPORTED.queue[..0] == [];
    assert Plannable(U14, 2, DID);
    hide REPORTED, Plannable, IndexIn;
  }

  lemma IsCurrent()
    ensures PlanCurrent(U15, PLAN) && Genuine(U15, PLAN) && !HasReceipt(U15, DID)
  {
    Queue();
    assert [Pending(DID, 2, 1, LOSS)][..0] == [];
    hide REPORTED;
  }

  lemma Step16()
    ensures BeginDelivery(U15, PLAN) == U16
  {
    IsCurrent();
    assert !DeliveryStopped(U15, 2, 1) && !AttentionReserved(U15, 1);
    hide BeginDelivery, PlanCurrent, Genuine, HasReceipt, DeliveryStopped, AttentionReserved;
    AdmitsAlone(U15, PLAN);
    assert U15.post.claims - {DID} == map[];
  }

  lemma StepSeventeen()
    ensures CompleteDelivery(U16, 6, true, 0, true) == U17
  {
    Queue();
    assert [Pending(DID, 2, 1, LOSS)][1..] == [];
    hide CompleteDelivery, J14, REPORTED;
    AcknowledgesAlone(U16, 6);
    assert U16.store.durable[2 := REPORTED.(queue := [])] == U17.store.durable;
    assert U16.post.receipts - {6} == map[];
  }

  // ---- The run ----

  const TO_TEN: seq<Step> := TO_EIGHT + [Stops(DoStopSubtree(None, 1, false, true))] + [Finishes(DoFinishGeneration(PARENT, NO_FINISH, 0, true))]
  const TO_THIRTEEN: seq<Step> := TO_TEN + [Stops(DoCompleteStop(true, true))]
                                  + [Starts(DoReserveOwedAttention(2, 1, 2)), Starts(DoCommitStart(4, false, {}, true))]
  const TO_FIFTEEN: seq<Step> := TO_THIRTEEN + [Finishes(DoFinishGeneration(SECOND, NO_FINISH, 0, true))] + [Delivers(DoPlanDelivery(2, DID))]
  const TO_SEVENTEEN: seq<Step> := TO_FIFTEEN + [Delivers(DoBeginDelivery(PLAN))] + [Delivers(DoCompleteDelivery(6, true, 0, true))]

  lemma StopSteps()
    ensures NextStop(S8, DoStopSubtree(None, 1, false, true)) == U9 && NextFinish(U9, DoFinishGeneration(PARENT, NO_FINISH, 0, true)) == U10
    ensures NextStop(U10, DoCompleteStop(true, true)) == U11
  {
    hide StopSubtree, CompleteStop, FinishGeneration;
    Step9();
    Step10();
    Step11();
  }

  lemma RerunSteps()
    ensures NextStart(U11, DoReserveOwedAttention(2, 1, 2)) == U12 && NextStart(U12, DoCommitStart(4, false, {}, true)) == U13
    ensures NextFinish(U13, DoFinishGeneration(SECOND, NO_FINISH, 0, true)) == U14
  {
    hide ReserveOwedAttention, CommitStart, FinishGeneration;
    Step12();
    Step13();
    Step14();
  }

  lemma DeliverySteps()
    ensures NextDeliver(U14, DoPlanDelivery(2, DID)) == U15 && NextDeliver(U15, DoBeginDelivery(PLAN)) == U16
    ensures NextDeliver(U16, DoCompleteDelivery(6, true, 0, true)) == U17
  {
    hide PlanDelivery, BeginDelivery, CompleteDelivery;
    Step15();
    Step16();
    StepSeventeen();
  }

  lemma ReachesTen()
    ensures Reaches(TO_TEN, U10)
  {
    hide Reaches, NextStop, NextFinish, S8, U9, U10, U11;
    ReachesEight();
    StopSteps();
    FollowStop(TO_EIGHT, S8, DoStopSubtree(None, 1, false, true), U9);
    FollowFinish(TO_EIGHT + [Stops(DoStopSubtree(None, 1, false, true))], U9, DoFinishGeneration(PARENT, NO_FINISH, 0, true), U10);
  }

  lemma ReachesThirteen()
    ensures Reaches(TO_THIRTEEN, U13)
  {
    hide Reaches, NextStop, NextFinish, NextStart, U10, U11, U12, U13, U14;
    ReachesTen();
    StopSteps();
    RerunSteps();
    FollowStop(TO_TEN, U10, DoCompleteStop(true, true), U11);
    FollowStarts(TO_TEN + [Stops(DoCompleteStop(true, true))], U11, DoReserveOwedAttention(2, 1, 2), U12, DoCommitStart(4, false, {}, true), U13);
  }

  lemma ReachesSeventeen()
    ensures Reaches(TO_SEVENTEEN, U17)
  {
    hide Reaches, NextFinish, NextStart, NextDeliver, U11, U12, U13, U14, U15, U16, U17;
    ReachesThirteen();
    RerunSteps();
    DeliverySteps();
    FollowFinish(TO_THIRTEEN, U13, DoFinishGeneration(SECOND, NO_FINISH, 0, true), U14);
    FollowDelivery(TO_THIRTEEN + [Finishes(DoFinishGeneration(SECOND, NO_FINISH, 0, true))], U14, DoPlanDelivery(2, DID), U15);
    FollowDelivery(TO_FIFTEEN, U15, DoBeginDelivery(PLAN), U16);
    FollowDelivery(TO_FIFTEEN + [Delivers(DoBeginDelivery(PLAN))], U16, DoCompleteDelivery(6, true, 0, true), U17);
  }

  lemma ReachedJournal(steps: seq<Step>, s: State)
    requires Reaches(steps, s)
    ensures Fold(s.store.journal) == Some(s.store.durable)
  {
    hide Inv, Run, JournalInv, StopShape, TokInv, Minted;
    RunKeepsInv(LIMITS, steps);
    InvFolds(s);
  }

  lemma InvFolds(s: State)
    requires Inv(s)
    ensures Fold(s.store.journal) == Some(s.store.durable)
  {
    hide CoreInv, StopAlwaysWins;
    CoreParts(s);
    FoldedJournal(s);
  }

  lemma Places()
    ensures |J10| == 8 && J_ACKED[..8] == J10 && J_ACKED[8] == DONE && |J_ACKED| == 13 && J_ACKED[12] == ACK
  {
    assert |BOTH| == 4 && |FailureEvents(CHILD)| == 2 && |FailureEvents(SECOND)| == 2;
    hide FailureEvents, StoppedFinishEvent, BOTH;
  }

  lemma Gap()
    requires Fold(J10) == Some(OVER)
    ensures AcksAfterGap(J_ACKED, 2)
  {
    Places();
    Completes();
    FirstReport();
    hide Fold, StopMembers;
    assert OpensGap(OVER, DONE, 2);
    assert GapAt(J_ACKED, 8, 2) && AckAt(J_ACKED, 12, 2);
  }

  lemma FirstReport()
    ensures OVER[2].queue != [] && OVER[2].parent == 1
  {
  }

  ghost predicate PrefixBroken(journal: seq<Event>) {
    Fold(journal).Some? && AcksAfterGap(journal, 2) && !(Acknowledged(SettledIn(journal, 2)) <= PostedIn(journal, 2))
  }

  lemma GapBreaksPrefix(journal: seq<Event>)
    requires Fold(journal).Some? && AcksAfterGap(journal, 2)
    ensures PrefixBroken(journal)
  {
    hide Fold, AcksAfterGap, Acknowledged, SettledIn, PostedIn;
    DeliveryOrder(journal, 2);
  }

  lemma Journals10()
    ensures Fold(J10) == Some(OVER) && U17.store.journal == J_ACKED
  {
    hide Reaches, TO_TEN, J10, J_ACKED, OVER, Fold;
    ReachesTen();
    ReachedJournal(TO_TEN, U10);
  }

  /** The child's second report is acknowledged though its first, dropped by the stop, never was. */
  lemma AcknowledgedNeedNotBePrefix()
    ensures PrefixBroken(Run(Init(LIMITS), TO_SEVENTEEN).store.journal)
  {
    hide Run, Fold, J10, J_ACKED, OVER, U17, AcksAfterGap, TO_SEVENTEEN, PrefixBroken;
    ReachesSeventeen();
    ReachedJournal(TO_SEVENTEEN, U17);
    Journals10();
    Gap();
    GapBreaksPrefix(J_ACKED);
  }

  // ---- A late creation ----

  const STOP_PARENT := StopState(3, 1, {1}, {PARENT}, {}, {}, {}, {}, {}, {}, {}, {}, {})
  const E7 := Plain(Store(BIRTH + [StopRequested(1)], map[1 := Stop(RUNNING, 3)], map[]), S6.runs, NO_POST, Some(STOP_PARENT), 3)
  const E8 := Plain(Store(BIRTH + [StopRequested(1)] + [Created(2, 1, true), RunStarted(2, 1, InitialTrigger)],
                          map[1 := Stop(RUNNING, 3), 2 := Newborn(1, 4)], map[1 := {2}]),
                    Runs(map[1 := ParentLive(7, true, 0), 2 := ChildLive(CHILD, false)], map[], map[], 2, 0, {}), NO_POST, Some(STOP_PARENT), 3)

  lemma MarksParent()
    ensures Append(S6, [StopRequested(1)], true) == Some(S6.(store := S6.store.(journal := BIRTH + [StopRequested(1)], durable := map[1 := Stop(RUNNING, 3)])))
  {
    var d := S6.store.durable;
    OneEvent(d, 2, StopRequested(1));
    assert Under(ShapeOf(d), 1, 1) && d[1].pendingStop == 0;
    assert Apply(d, 3, StopRequested(1)).Some?;
    assert Apply(d, 3, StopRequested(1)).value == map[1 := Stop(RUNNING, 3)];
  }

  lemma ParentTracked()
    ensures Subtree(ShapeOf(S6.store.durable), 1) == {1} && Snapshot(S6, 3, 1, {1}) == STOP_PARENT
  {
    assert ActiveIn(S6.runs.live, {1}) == {PARENT} by { assert LeaseAt(S6.runs.live, 1) == Some(PARENT); }
    assert StartsIn(S6.runs.reservations, {1}) == {};
  }

  lemma StopsParent()
    ensures StopSubtree(S6, None, 1, false, true) == E7
  {
    MarksParent();
    ParentTracked();
    assert !AttentionBlocks(S6, {1});
    var none: map<DeliveryId, Token> := map[];
    assert none - ClaimsIn(none, map[], {1}) == none;
    assert OweAll(map[], WaitersIn(none, map[], {1})) == map[];
    hide Append, Snapshot, Subtree, AttentionBlocks, ClaimsIn, OweAll, WaitersIn;
  }

  lemma NothingRefuses()
    ensures !CommitRefused(E7, RESERVED, false)
  {
  }

  lemma Lands()
    ensures CommitStart(E7, 3, false, {}, true) == E8
  {
    NothingRefuses();
    CommitsCreation(E7, 3, 2, 1);
    hide CommitStart, CommitRefused;
    assert E7.runs.reservations - {3} == map[];
    assert E7.store.durable[2 := Newborn(1, 4)] == E8.store.durable;
    var none: Index := map[];
    assert Kids(none, 1) + {2} == {2};
    assert AddChildEdge(none, 2, 1) == map[1 := {2}];
    assert E7.runs.live[2 := StartedLive(NO_LIVE, RESERVED)] == E8.runs.live;
    assert STOP_PARENT.starts - {3} == {};
  }

  lemma Steps()
    ensures NextStop(S6, DoStopSubtree(None, 1, false, true)) == E7 && NextStart(E7, DoCommitStart(3, false, {}, true)) == E8
  {
    hide StopSubtree, CommitStart;
    StopsParent();
    Lands();
  }

  /** Create the parent and make it ready, reserve its child, stop the parent, commit the child. */
  const ESCAPE: seq<Step> := TO_SIX + [Stops(DoStopSubtree(None, 1, false, true))] + [Starts(DoCommitStart(3, false, {}, true))]

  lemma Escaped()
    ensures !FenceWhole(E8) && E8.stop.Some? && 2 in E8.store.durable && E8.store.durable[2].open && E8.store.durable[2].pendingStop == 0
  {
    var t := ShapeOf(E8.store.durable);
    assert HasParent(t, 2) && Under(t, t[2].parent, 1);
    assert Under(t, 2, 1);
  }

  /** The child runs, unmarked, beneath a pending stop. */
  ghost predicate RunsBeneathStop(s: State) {
    !FenceWhole(s) && s.stop.Some? && 2 in s.store.durable && s.store.durable[2].open && s.store.durable[2].pendingStop == 0
  }

  lemma ReachesEscape()
    ensures Reaches(ESCAPE, E8)
  {
    hide Reaches, NextStop, NextStart, S6, E7, E8;
    ReachesSix();
    Steps();
    FollowStop(TO_SIX, S6, DoStopSubtree(None, 1, false, true), E7);
    FollowStart(TO_SIX + [Stops(DoStopSubtree(None, 1, false, true))], E7, DoCommitStart(3, false, {}, true), E8);
  }

  /** A pending stop does not refuse creation: a child reserved before its parent was stopped runs outside the stop. */
  lemma CreationEscapesStop()
    ensures RunsBeneathStop(Run(Init(LIMITS), ESCAPE))
  {
    ReachesEscape();
    Escaped();
    hide Run, FenceWhole, ESCAPE, E8;
  }
}
