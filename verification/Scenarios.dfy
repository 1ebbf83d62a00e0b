/** A run of the machine, step by step: a delegate made ready, its child created and failed. Later modules continue it. */
module Scenarios {
  import opened Types
  import opened Tree
  import opened Journal
  import opened State
  import opened Settle
  import opened Finishing
  import opened Starting
  import opened Claims
  import opened Delivering
  import opened Stopping
  import opened Fences
  import opened Machine
  import opened Effects

  const LIMITS := Limits(2, 1, 0)

  /** The steps lead from an empty tree to `s`. */
  ghost predicate Reaches(steps: seq<Step>, s: State) {
    Run(Init(LIMITS), steps) == s
  }

  lemma Follow(steps: seq<Step>, s: State, step: Step, n: State)
    requires Reaches(steps, s) && Next(s, step) == n
    ensures Reaches(steps + [step], n)
  {
    hide Next;
    assert (steps + [step])[..|steps|] == steps;
  }

  lemma ByStart(s: State, x: StartStep)
    ensures Next(s, Starts(x)) == NextStart(s, x)
  {
    hide NextStart, NextFinish, NextClaim, NextDeliver, NextStop, NextFence;
  }

  lemma ByFinish(s: State, x: FinishStep)
    ensures Next(s, Finishes(x)) == NextFinish(s, x)
  {
    hide NextStart, NextFinish, NextClaim, NextDeliver, NextStop, NextFence;
  }

  lemma ByStop(s: State, x: StopStep)
    ensures Next(s, Stops(x)) == NextStop(s, x)
  {
    hide NextStart, NextFinish, NextClaim, NextDeliver, NextStop, NextFence;
  }

  lemma ByDelivery(s: State, x: DeliverStep)
    ensures Next(s, Delivers(x)) == NextDeliver(s, x)
  {
    hide NextStart, NextFinish, NextClaim, NextDeliver, NextStop, NextFence;
  }

  // ---- Runs that start and fail ----

  /** How a run that says nothing of itself ends. */
  const LOSS := ReasonPacket(NoReason)

  function Broken(a: Aggregate, id: Id): Aggregate {
    a.(phase := Idle, open := false, outcome := Some(Outcome(Failed, NoReason, 0, None)),
       queue := a.queue + [Pending(Report(id, a.generation), a.generation, a.parent, LOSS)])
  }

  function FailureEvents(l: Lease): seq<Event> {
    [TerminalPrepared(l.id, l.generation, LOSS),
     RunFinished(l.id, l.generation, Outcome(Failed, NoReason, 0, None), TerminalErrorRun, Some(ReportId(l)), None)]
  }

  lemma FailsRun(d: Durable, n: nat, l: Lease)
    requires OpenRun(d, l.id, l.generation) && d[l.id].phase == Running && d[l.id].resumable && d[l.id].prepared.None? && !Queued(d[l.id].queue, ReportId(l))
    ensures ApplyBatch(d, n, FailureEvents(l)) == Some(d[l.id := Broken(d[l.id], l.id)])
    ensures StartFailureEvents(l, NO_FINISH, 0) == FailureEvents(l) && RunningEvents(l, NO_FINISH, 0) == FailureEvents(l)
  {
    var e, f := FailureEvents(l)[0], FailureEvents(l)[1];
    assert FailureEvents(l) == [e, f];
    TwoEvents(d, n, e, f);
    var mid := d[l.id := d[l.id].(prepared := Some(LOSS), phase := Settling)];
    assert Apply(d, n + 1, e) == Some(mid);
    assert mid[l.id].prepared.Some? && FinishPacketOk(mid[l.id], f, mid[l.id].prepared);
    assert Apply(mid, n + 2, f).value == d[l.id := Broken(d[l.id], l.id)];
  }

  /** A delegate created and started at once. */
  function Newborn(parent: Id, born: nat): Aggregate {
    Aggregate(parent, born, 1, InitialTrigger, Running, true, None, true, None, [], 0)
  }

  lemma CreatesRun(d: Durable, n: nat, id: Id, parent: Id)
    requires id !in d && id != NO_ID && (parent == NO_ID || parent in d)
    ensures ApplyBatch(d, n, StartEvents(Reservation(id, 1, InitialTrigger, true, parent, 0, 0))) == Some(d[id := Newborn(parent, n + 1)])
  {
    var e, f := Created(id, parent, true), RunStarted(id, 1, InitialTrigger);
    assert StartEvents(Reservation(id, 1, InitialTrigger, true, parent, 0, 0)) == [e, f];
    TwoEvents(d, n, e, f);
    var mid := Apply(d, n + 1, e).value;
    assert Apply(mid, n + 2, f).value == d[id := Newborn(parent, n + 1)];
  }

  // ---- A delegate, ready for work ----

  const PARENT := Lease(1, 1)
  const RUNNING := Newborn(NO_ID, 1)
  const DUE := Evidence(true, false, false, None)
  const BIRTH: seq<Event> := [Created(1, NO_ID, true), RunStarted(1, 1, InitialTrigger)]

  function ParentLive(runtime: Runtime, ready: bool, input: Token): Live {
    NO_LIVE.(runtime := runtime, binding := Some(Binding(PARENT, runtime, ready, input, DUE)))
  }

  const NO_TABLES := Tables(map[], map[], map[], map[], map[], map[], map[])
  const NO_POST := Post(map[], map[], map[], map[], map[])
  const NO_GUARDS := Guards({}, map[], map[], map[], map[])

  /** A state whose claim tables and guards are empty. */
  function Plain(store: Store, runs: Runs, post: Post, stop: Option<StopState>, nextToken: Token): State {
    State(store, runs, NO_TABLES, post, NO_GUARDS, stop, false, nextToken, LIMITS)
  }

  const S0 := Init(LIMITS)
  const S1 := Plain(Store([], map[], map[]), Runs(map[], map[1 := Reservation(1, 1, InitialTrigger, true, NO_ID, 0, 0)], map[], 1, 0, {}), NO_POST, None, 1)
  const S2 := Plain(Store(BIRTH, map[1 := RUNNING], map[]), Runs(map[1 := ParentLive(0, false, 0)], map[], map[], 1, 0, {}), NO_POST, None, 1)
  const S3 := Plain(Store(BIRTH, map[1 := RUNNING], map[]), Runs(map[1 := ParentLive(7, false, 0)], map[], map[], 1, 0, {}), NO_POST, None, 1)
  const S4 := Plain(Store(BIRTH, map[1 := RUNNING], map[]), Runs(map[1 := ParentLive(7, false, 2)], map[], map[2 := PARENT], 1, 0, {}), NO_POST, None, 2)
  const S5 := Plain(Store(BIRTH, map[1 := RUNNING], map[]), Runs(map[1 := ParentLive(7, true, 0)], map[], map[], 1, 0, {}), NO_POST, None, 2)

  lemma Step1()
    ensures ReserveCreate(S0, None, 1) == S1
  {
  }

  lemma Step2()
    ensures CommitStart(S1, 1, false, {}, true) == S2
  {
    CreatesRun(map[], 0, 1, NO_ID);
    hide ApplyBatch;
    assert S1.runs.reservations - {1} == map[];
  }

  lemma Step3()
    ensures AttachRuntime(S2, PARENT, 7) == S3
  {
    assert S2.runs.live[1 := ParentLive(7, false, 0)] == map[1 := ParentLive(7, false, 0)];
  }

  lemma Step4()
    ensures BeginStartInput(S3, PARENT) == S4
  {
    assert S3.runs.live[1 := ParentLive(7, false, 2)] == map[1 := ParentLive(7, false, 2)];
  }

  lemma Step5()
    ensures CompleteStartInput(S4, 2, true, NO_FINISH, 0, true) == S5
  {
    assert S4.runs.inputs - {2} == map[];
    assert S4.runs.live[1 := ParentLive(7, false, 0)][1 := ParentLive(7, true, 0)] == map[1 := ParentLive(7, true, 0)];
  }

  // ---- Its child ----

  const CHILD := Lease(2, 1)
  const RESERVED := Reservation(2, 1, InitialTrigger, true, 1, 0, 0)
  const S6 := Plain(Store(BIRTH, map[1 := RUNNING], map[]), Runs(map[1 := ParentLive(7, true, 0)], map[3 := RESERVED], map[], 2, 0, {}), NO_POST, None, 3)

  function ChildLive(l: Lease, ready: bool): Live {
    NO_LIVE.(binding := Some(Binding(l, 0, ready, 0, DUE)))
  }

  const BOTH: seq<Event> := BIRTH + [Created(2, 1, true), RunStarted(2, 1, InitialTrigger)]
  const S7 := Plain(Store(BOTH, map[1 := RUNNING, 2 := Newborn(1, 3)], map[1 := {2}]),
                    Runs(map[1 := ParentLive(7, true, 0), 2 := ChildLive(CHILD, false)], map[], map[], 2, 0, {}), NO_POST, None, 3)
  const ENDED := Broken(Newborn(1, 3), 2)
  const S8 := Plain(Store(BOTH + FailureEvents(CHILD), map[1 := RUNNING, 2 := ENDED], map[1 := {2}]),
                    Runs(map[1 := ParentLive(7, true, 0), 2 := NO_LIVE], map[], map[], 1, 0, {}), NO_POST, None, 3)

  lemma Step6()
    ensures ReserveCreate(S5, Some(PARENT), 2) == S6
  {
  }

  /** A creation nothing refuses, as its state. */
  lemma CommitsCreation(s: State, t: Token, id: Id, parent: Id)
    requires t in s.runs.reservations && s.runs.reservations[t] == Reservation(id, 1, InitialTrigger, true, parent, 0, 0)
    requires !CommitRefused(s, s.runs.reservations[t], false) && id != NO_ID && (parent == NO_ID || parent in s.store.durable) && 0 !in s.post.waiters
    ensures var live := if id in s.runs.live then s.runs.live[id] else NO_LIVE;
            CommitStart(s, t, false, {}, true) ==
              s.(store := Store(s.store.journal + [Created(id, parent, true), RunStarted(id, 1, InitialTrigger)],
                                s.store.durable[id := Newborn(parent, |s.store.journal| + 1)], AddChildEdge(s.store.children, id, parent)),
                 runs := s.runs.(reservations := s.runs.reservations - {t}, live := s.runs.live[id := StartedLive(live, s.runs.reservations[t])]),
                 stop := UntrackStart(s.stop, t))
  {
    assert id !in s.store.durable;
    CreatesRun(s.store.durable, |s.store.journal|, id, parent);
    hide ApplyBatch, CommitRefused, AddChildEdge, StartedLive, Newborn, UntrackStart;
  }

  lemma Unrefused()
    ensures !CommitRefused(S6, RESERVED, false)
  {
  }

  lemma Step7()
    ensures CommitStart(S6, 3, false, {}, true) == S7
  {
    Unrefused();
    CommitsCreation(S6, 3, 2, 1);
    hide CommitStart, CommitRefused;
    assert S6.runs.reservations - {3} == map[];
    assert S6.store.durable[2 := Newborn(1, 3)] == S7.store.durable;
    var none: Index := map[];
    assert Kids(none, 1) + {2} == {2};
    assert AddChildEdge(none, 2, 1) == map[1 := {2}];
    assert S6.runs.live[2 := StartedLive(NO_LIVE, RESERVED)] == S7.runs.live;
  }

  /** A committed start that fails while nothing else goes on, as its state. */
  lemma FailsQuietly(s: State, l: Lease)
    requires ExactLease(s, l) && s.tables == NO_TABLES && s.stop.None?
    requires var a, live := s.store.durable[l.id], s.runs.live[l.id];
             && a.phase == Running && a.resumable && a.prepared.None? && a.trigger != AttentionTrigger && !Queued(a.queue, ReportId(l))
             && !live.recovery && !live.binding.value.ready
    ensures FailCommitted(s, l, NO_FINISH, false, 0, 0, true) ==
              s.(store := s.store.(journal := s.store.journal + FailureEvents(l), durable := s.store.durable[l.id := Broken(s.store.durable[l.id], l.id)]),
                 runs := s.runs.(inputs := s.runs.inputs - {s.runs.live[l.id].binding.value.input}, live := s.runs.live[l.id := Unbound(s.runs.live[l.id])],
                                 turns := Down(s.runs.turns)))
  {
    FailsRun(s.store.durable, |s.store.journal|, l);
    BrokenKeeps(s.store.durable[l.id], l.id);
    NothingKept(s, l.id);
    assert StartFailureEvents(l, NO_FINISH, 0) + [] == FailureEvents(l);
    hide ApplyBatch, FailureEvents, StartFailureEvents, Broken, Unbound, KeptSteering, KeptModels, KeptSettlements, OnlyRunEnds, SteersReleased,
         EvidenceGrows, SameWaiters, OnlyGeneration, Queued;
  }

  lemma BrokenKeeps(a: Aggregate, id: Id)
    ensures Broken(a, id).trigger == a.trigger
  {
  }

  lemma NothingKept(s: State, id: Id)
    requires s.tables == NO_TABLES
    ensures KeptSteering(s, id) == map[] && KeptModels(s, id) == map[] && KeptSettlements(s, id) == map[]
    ensures forall n: State | n.tables == s.tables && n.stop == s.stop ::
              KeptSteering(n, id) == map[] && KeptModels(n, id) == map[] && KeptSettlements(n, id) == map[]
  {
  }

  function Unwatched(stop: Option<StopState>, l: Lease): Option<StopState> {
    if stop.None? then None else Some(stop.value.(active := stop.value.active - {l}))
  }

  lemma UntracksNothing(s: State, l: Lease)
    requires forall t | t in s.tables.settlements :: s.tables.settlements[t].lease != l
    ensures UntrackGeneration(s, l) == Unwatched(s.stop, l)
  {
    var own := set t | t in s.tables.settlements && s.tables.settlements[t].lease == l;
    assert own == {};
    if s.stop.Some? { assert s.stop.value.settlements - own == s.stop.value.settlements; }
  }

  /** A generation released while it holds no claims, as its state. */
  lemma ReleasesQuietly(s: State, l: Lease)
    requires l.id in s.store.durable && LeaseAt(s.runs.live, l.id) == Some(l) && s.tables == NO_TABLES
    ensures var drive := s.store.durable[l.id].trigger == AttentionTrigger;
            ReleaseGeneration(s, l) ==
              s.(stop := Unwatched(s.stop, l),
                 runs := s.runs.(inputs := s.runs.inputs - {s.runs.live[l.id].binding.value.input}, live := s.runs.live[l.id := Unbound(s.runs.live[l.id])],
                                 turns := if drive then s.runs.turns else Down(s.runs.turns), drives := if drive then Down(s.runs.drives) else s.runs.drives))
  {
    NothingKept(s, l.id);
    UntracksNothing(s, l);
    hide UntrackGeneration, Unwatched, Unbound, KeptSteering, KeptModels, KeptSettlements, SteersReleased, EvidenceGrows, SameWaiters, OnlyGeneration, Down;
  }

  /** Nothing holds the finish of `l` back. */
  predicate Finishable(s: State, l: Lease) {
    ExactLease(s, l) && s.tables == NO_TABLES && !s.runs.live[l.id].finalRecovery && s.runs.live[l.id].quiet == 0
  }

  /** A run that says nothing of itself ends failed, or stopped under a stop. */
  lemma FinishesQuietly(s: State, l: Lease, batch: seq<Event>, mid: State)
    requires Finishable(s, l) && Append(s, batch, true) == Some(mid)
    requires || (s.store.durable[l.id].phase == Running && batch == RunningEvents(l, NO_FINISH, 0))
             || (s.store.durable[l.id].phase == Stopping && batch == [StoppedFinishEvent(l, None, 0)])
    ensures FinishGeneration(s, l, NO_FINISH, false, 0, true) == ReleaseGeneration(mid, l)
  {
    assert FinalizationReady(s, l);
    hide Append, ReleaseGeneration, RunningEvents, StoppedFinishEvent, FinalizationReady, SteersReleased, EvidenceGrows, SameWaiters, OnlyGeneration, OnlyRunEnds;
  }

  /** A single delivery nothing refuses, as its state. */
  lemma AdmitsAlone(s: State, p: Plan)
    requires Genuine(s, p) && PlanCurrent(s, p) && !HasReceipt(s, p.did) && p.carried == [] && p.waiter == 0 && !p.callerCommitted && 0 !in s.post.waiters
    requires !DeliveryStopped(s, p.delegate, p.owner) && !AttentionReserved(s, p.owner)
    ensures p.claim in s.post.parcels
    ensures BeginDelivery(s, p) ==
              s.(nextToken := s.nextToken + 1,
                 post := s.post.(claims := s.post.claims - {p.did},
                                 receipts := s.post.receipts[s.nextToken + 1 := Receipt(p.did, p.delegate, p.owner, p.claim, s.post.parcels[p.claim].cold, false, false, 0)]))
  {
    assert p.claim in s.post.parcels;
    hide Genuine, PlanCurrent, HasReceipt, DeliveryStopped, AttentionReserved, AdmitCarried;
  }

  /** An acknowledgement that lands, as its state. */
  lemma AcknowledgesAlone(s: State, t: Token)
    requires t in s.post.receipts && s.stop.None?
    requires var r := s.post.receipts[t]; r.delegate in s.store.durable && s.store.durable[r.delegate].queue != [] && s.store.durable[r.delegate].queue[0].did == r.did
    ensures var r := s.post.receipts[t];
            CompleteDelivery(s, t, true, 0, true) ==
              s.(store := s.store.(journal := s.store.journal + [DeliveryAcknowledged(r.delegate, r.did)],
                                   durable := s.store.durable[r.delegate := s.store.durable[r.delegate].(queue := s.store.durable[r.delegate].queue[1..])]),
                 post := s.post.(receipts := s.post.receipts - {t}))
  {
    var r := s.post.receipts[t];
    OneEvent(s.store.durable, |s.store.journal|, DeliveryAcknowledged(r.delegate, r.did));
    hide ApplyBatch, RestoreHeld;
  }

  lemma Step8()
    ensures FailCommitted(S7, CHILD, NO_FINISH, false, 0, 0, true) == S8
  {
    FailsQuietly(S7, CHILD);
    hide FailCommitted, FailureEvents, Broken;
    assert S7.store.durable[2 := Broken(Newborn(1, 3), 2)] == S8.store.durable;
    assert Unbound(ChildLive(CHILD, false)) == NO_LIVE;
    assert S7.runs.live[2 := NO_LIVE] == S8.runs.live;
    assert S7.runs.inputs - {0} == map[];
  }

  // ---- The run so far ----

  const TO_TWO: seq<Step> := [Starts(DoReserveCreate(None, 1)), Starts(DoCommitStart(1, false, {}, true))]
  const TO_FOUR: seq<Step> := TO_TWO + [Starts(DoAttachRuntime(PARENT, 7)), Starts(DoBeginStartInput(PARENT))]
  const TO_SIX: seq<Step> := TO_FOUR + [Starts(DoCompleteStartInput(2, true, NO_FINISH, 0, true)), Starts(DoReserveCreate(Some(PARENT), 2))]
  const TO_EIGHT: seq<Step> := TO_SIX + [Starts(DoCommitStart(3, false, {}, true)), Starts(DoFailCommitted(CHILD, NO_FINISH, false, 0, 0, true))]

  lemma FollowStart(steps: seq<Step>, s: State, x: StartStep, n: State)
    requires Reaches(steps, s) && NextStart(s, x) == n
    ensures Reaches(steps + [Starts(x)], n)
  {
    hide Reaches, Next, NextStart;
    ByStart(s, x);
    Follow(steps, s, Starts(x), n);
  }

  lemma FollowStop(steps: seq<Step>, s: State, x: StopStep, n: State)
    requires Reaches(steps, s) && NextStop(s, x) == n
    ensures Reaches(steps + [Stops(x)], n)
  {
    hide Reaches, Next, NextStop;
    ByStop(s, x);
    Follow(steps, s, Stops(x), n);
  }

  lemma FollowFinish(steps: seq<Step>, s: State, x: FinishStep, n: State)
    requires Reaches(steps, s) && NextFinish(s, x) == n
    ensures Reaches(steps + [Finishes(x)], n)
  {
    hide Reaches, Next, NextFinish;
    ByFinish(s, x);
    Follow(steps, s, Finishes(x), n);
  }

  lemma FollowDelivery(steps: seq<Step>, s: State, x: DeliverStep, n: State)
    requires Reaches(steps, s) && NextDeliver(s, x) == n
    ensures Reaches(steps + [Delivers(x)], n)
  {
    hide Reaches, Next, NextDeliver;
    ByDelivery(s, x);
    Follow(steps, s, Delivers(x), n);
  }

  /** Two starting steps in a row. */
  lemma FollowStarts(steps: seq<Step>, s: State, x: StartStep, m: State, y: StartStep, n: State)
    requires Reaches(steps, s) && NextStart(s, x) == m && NextStart(m, y) == n
    ensures Reaches(steps + [Starts(x), Starts(y)], n)
  {
    hide Reaches, NextStart;
    FollowStart(steps, s, x, m);
    FollowStart(steps + [Starts(x)], m, y, n);
    assert steps + [Starts(x)] + [Starts(y)] == steps + [Starts(x), Starts(y)];
  }

  lemma StartSteps()
    ensures NextStart(S0, DoReserveCreate(None, 1)) == S1 && NextStart(S1, DoCommitStart(1, false, {}, true)) == S2
    ensures NextStart(S2, DoAttachRuntime(PARENT, 7)) == S3 && NextStart(S3, DoBeginStartInput(PARENT)) == S4
  {
    hide ReserveCreate, ReserveStart, ReserveAttention, ReserveOwedAttention, RegisterWaiter, ReleaseReservation, CommitStart, AttachRuntime, AttachIdleRuntime,
         BeginStartInput, CompleteStartInput, FailCommitted;
    Step1();
    Step2();
    Step3();
    Step4();
  }

  lemma ChildSteps()
    ensures NextStart(S4, DoCompleteStartInput(2, true, NO_FINISH, 0, true)) == S5 && NextStart(S5, DoReserveCreate(Some(PARENT), 2)) == S6
    ensures NextStart(S6, DoCommitStart(3, false, {}, true)) == S7 && NextStart(S7, DoFailCommitted(CHILD, NO_FINISH, false, 0, 0, true)) == S8
  {
    hide ReserveCreate, ReserveStart, ReserveAttention, ReserveOwedAttention, RegisterWaiter, ReleaseReservation, CommitStart, AttachRuntime, AttachIdleRuntime,
         BeginStartInput, CompleteStartInput, FailCommitted;
    Step5();
    Step6();
    Step7();
    Step8();
  }

  lemma NowhereYet()
    ensures Reaches([], S0)
  {
    hide Next;
  }

  lemma ReachesSix()
    ensures Reaches(TO_SIX, S6)
  {
    hide NextStart, Reaches, S0, S1, S2, S3, S4, S5, S6, S7, S8;
    StartSteps();
    ChildSteps();
    NowhereYet();
    FollowStarts([], S0, DoReserveCreate(None, 1), S1, DoCommitStart(1, false, {}, true), S2);
    assert [] + TO_TWO == TO_TWO;
    FollowStarts(TO_TWO, S2, DoAttachRuntime(PARENT, 7), S3, DoBeginStartInput(PARENT), S4);
    FollowStarts(TO_FOUR, S4, DoCompleteStartInput(2, true, NO_FINISH, 0, true), S5, DoReserveCreate(Some(PARENT), 2), S6);
  }

  lemma ReachesEight()
    ensures Reaches(TO_EIGHT, S8)
  {
    hide NextStart, Reaches, S0, S1, S2, S3, S4, S5, S6, S7, S8;
    ReachesSix();
    ChildSteps();
    FollowStarts(TO_SIX, S6, DoCommitStart(3, false, {}, true), S7, DoFailCommitted(CHILD, NO_FINISH, false, 0, 0, true), S8);
  }
}
