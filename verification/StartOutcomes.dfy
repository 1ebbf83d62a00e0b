/** What starting a run leaves behind, operation by operation: who is granted a slot, what a commit writes, when a run is ready. */
module StartOutcomes {
  import opened Types
  import opened Tree
  import opened Journal
  import opened State
  import opened Settle
  import opened Finishing
  import opened Starting
  import opened Effects
  import opened StartKept

  // ---- Admission ----

  /** Someone from `p` up refuses work beneath it: unknown, closed for good, or marked by a stop. */
  ghost predicate FenceAbove(d: Durable, p: Id) {
    exists q :: Under(ShapeOf(d), p, q) && (q !in d || !d[q].resumable || d[q].pendingStop != 0)
  }

  lemma {:induction false} FencedExactly(d: Durable, p: Id)
    requires WellFounded(ShapeOf(d)) && p != NO_ID
    ensures Fenced(d, p) <==> FenceAbove(d, p)
    decreases if p in d then d[p].born + 1 else 0
  {
    var t := ShapeOf(d);
    if p in d {
      assert t[p] == Node(d[p].parent, d[p].born);
      if d[p].parent != NO_ID {
        assert d[p].parent in d && t[d[p].parent] == Node(d[d[p].parent].parent, d[d[p].parent].born);
        FencedExactly(d, d[p].parent);
        if FenceAbove(d, d[p].parent) {
          var q :| Under(t, d[p].parent, q) && (q !in d || !d[q].resumable || d[q].pendingStop != 0);
          assert Under(t, p, q);
        }
      }
      assert Under(t, p, p);
      if FenceAbove(d, p) && d[p].resumable && d[p].pendingStop == 0 {
        var q :| Under(t, p, q) && (q !in d || !d[q].resumable || d[q].pendingStop != 0);
        assert q != p && HasParent(t, p) && Under(t, d[p].parent, q);
      }
    } else {
      assert Under(t, p, p);
    }
  }

  predicate CurrentRun(s: State, id: Id, l: Lease) {
    l.id == id && LeaseAt(s.runs.live, id) == Some(l) && OpenRun(s.store.durable, id, l.generation)
  }

  /** The root controls the delegates at the root; any other delegate answers to its parent's current run, and to nobody without one. */
  lemma ControlIsExact(s: State, actor: Option<Lease>, target: Id)
    requires target in s.store.durable
    ensures s.store.durable[target].parent == NO_ID ==> (Authorized(s, actor, target) <==> actor.None?)
    ensures s.store.durable[target].parent != NO_ID ==> (Authorized(s, actor, target) <==> actor.Some? && CurrentRun(s, s.store.durable[target].parent, actor.value))
  {
  }

  /** Which leases may take new work. */
  lemma AdmissionIsExact(s: State, l: Lease)
    requires WellFounded(ShapeOf(s.store.durable))
    ensures Admitted(s, l) <==>
            && OpenRun(s.store.durable, l.id, l.generation) && s.store.durable[l.id].phase == Running && s.store.durable[l.id].resumable
            && LeaseAt(s.runs.live, l.id) == Some(l) && s.runs.live[l.id].binding.value.ready && !s.runs.live[l.id].recovery
            && s.store.durable[l.id].pendingStop == 0 && !s.closing
            && (s.store.durable[l.id].parent != NO_ID ==> !FenceAbove(s.store.durable, s.store.durable[l.id].parent))
            && forall r | r in s.guards.reclaiming :: !Under(ShapeOf(s.store.durable), l.id, r)
  {
    if l.id in s.store.durable && s.store.durable[l.id].parent != NO_ID { FencedExactly(s.store.durable, s.store.durable[l.id].parent); }
    hide FenceAbove, Under, ShapeOf;
  }

  // ---- Reservations ----

  /** A fresh token holds `r`, and one more slot of its kind is taken, within the limit. */
  predicate Granted(s: State, n: State, r: Reservation) {
    && n.nextToken == s.nextToken + 1 && n.runs.reservations == s.runs.reservations[n.nextToken := r]
    && if r.trigger == AttentionTrigger then s.runs.drives < s.limits.drives && n.runs.drives == s.runs.drives + 1 && n.runs.turns == s.runs.turns
       else s.runs.turns < s.limits.turns && n.runs.turns == s.runs.turns + 1 && n.runs.drives == s.runs.drives
  }

  /** Nobody has the id: no record, no handoff, no reservation. */
  predicate Unused(s: State, id: Id) {
    id != NO_ID && id !in s.store.durable && id !in s.guards.laneHandoffs && forall t | t in s.runs.reservations :: s.runs.reservations[t].id != id
  }

  /** A creation is granted exactly to an admitted actor or the root, for an unused id beneath no handoff, while a turn is free. */
  lemma CreationReserved(s: State, actor: Option<Lease>, newId: Id)
    ensures var n, parent := ReserveCreate(s, actor, newId), if actor.Some? then actor.value.id else NO_ID;
            if !s.closing && (actor.Some? ==> Admitted(s, actor.value)) && !LaneCovers(s, parent) && Unused(s, newId) && s.runs.turns < s.limits.turns
            then Granted(s, n, Reservation(newId, 1, InitialTrigger, true, parent, 0, 0)) else n == s
  {
    hide Admitted, LaneCovers;
  }

  /** Idle, resumable, unstopped, not being reclaimed, and nobody starting it already. */
  predicate Startable(s: State, id: Id) {
    && !s.closing && id in s.store.durable && s.store.durable[id].phase == Idle && s.store.durable[id].resumable && s.store.durable[id].pendingStop == 0
    && !Reclaimed(s, id) && !LaneCovers(s, id) && forall t | t in s.runs.reservations :: s.runs.reservations[t].id != id
  }

  lemma StartReserved(s: State, actor: Option<Lease>, id: Id)
    ensures var n := ReserveStart(s, actor, id);
            if Startable(s, id) && Authorized(s, actor, id) && (actor.Some? ==> Admitted(s, actor.value)) && s.runs.turns < s.limits.turns
            then Granted(s, n, Reservation(id, s.store.durable[id].generation + 1, OwnerInput, false, s.store.durable[id].parent, 0, 0)) else n == s
  {
    hide Admitted, LaneCovers, Authorized, Reclaimed;
  }

  /** An attention start is for an idle delegate with this very runtime resident, nothing being delivered to it, beneath no fence. */
  lemma AttentionStartReserved(s: State, id: Id, runtime: Runtime, wake: nat)
    ensures var n := ReserveAttention(s, id, runtime, wake);
            if Startable(s, id) && runtime != 0 && id in s.runs.live && s.runs.live[id].runtime == runtime && wake != 0 && LeaseAt(s.runs.live, id).None? && !s.runs.live[id].recovery
               && !DeliveryWork(s, id, false) && !Fenced(s.store.durable, s.store.durable[id].parent) && s.runs.drives < s.limits.drives
            then Granted(s, n, Reservation(id, s.store.durable[id].generation + 1, AttentionTrigger, false, s.store.durable[id].parent, runtime, 0)) else n == s
  {
    hide LaneCovers, Reclaimed, DeliveryWork, Fenced;
  }

  lemma OwedReserved(s: State, id: Id, wake: nat, generation: nat)
    ensures var n := ReserveOwedAttention(s, id, wake, generation);
            if Startable(s, id) && wake != 0 && generation == s.store.durable[id].generation + 1 && s.stop.None?
               && !DeliveryWork(s, id, false) && !Fenced(s.store.durable, s.store.durable[id].parent) && s.runs.drives < s.limits.drives
            then Granted(s, n, Reservation(id, generation, AttentionTrigger, false, s.store.durable[id].parent, 0, 0)) else n == s
  {
    hide LaneCovers, Reclaimed, DeliveryWork, Fenced;
  }

  /** A reservation takes one waiter, once. */
  lemma WaiterTaken(s: State, t: Token)
    ensures var n := RegisterWaiter(s, t);
            if !s.closing && t in s.runs.reservations && s.runs.reservations[t].waiter == 0
            then n.nextToken == s.nextToken + 1 && n.runs.reservations == s.runs.reservations[t := s.runs.reservations[t].(waiter := n.nextToken)]
                 && n.post.waiters == s.post.waiters[n.nextToken := Reserved(t)]
            else n == s
  {
  }

  /** A reservation given back leaves its slot and its stop, and its waiter is discarded. */
  predicate GivenBack(s: State, n: State, t: Token) {
    && t in s.runs.reservations && n.runs.reservations == s.runs.reservations - {t} && n.store == s.store && n.runs.live == s.runs.live
    && var r := s.runs.reservations[t];
    && (if r.trigger == AttentionTrigger then n.runs.turns == s.runs.turns && (s.runs.drives > 0 ==> n.runs.drives == s.runs.drives - 1)
        else n.runs.drives == s.runs.drives && (s.runs.turns > 0 ==> n.runs.turns == s.runs.turns - 1))
    && (s.stop.Some? ==> n.stop.Some? && n.stop.value.starts == s.stop.value.starts - {t}) && (s.stop.None? ==> n.stop.None?)
    && (forall w | w in s.post.waiters :: w in n.post.waiters && n.post.waiters[w] == if w == r.waiter then Discarded else s.post.waiters[w])
    && n.post.attention == s.post.attention
  }

  lemma ReservationGivenBack(s: State, t: Token)
    ensures var n := ReleaseReservation(s, t); if t in s.runs.reservations then GivenBack(s, n, t) else n == s
  {
  }

  // ---- Commits ----

  /** A commit lands, or gives the reservation back, or, for an attention start the store did not take, keeps it for a retry. */
  lemma CommitCases(s: State, t: Token, cancelled: bool, pending: set<nat>, storeOk: bool)
    requires JournalInv(s.store.journal, s.store.durable)
    ensures var n := CommitStart(s, t, cancelled, pending, storeOk);
            if t !in s.runs.reservations then n == s
            else
              var r := s.runs.reservations[t]; var lands := Append(s, StartEvents(r), storeOk).Some?;
              if CommitRefused(s, r, cancelled) || (!lands && r.trigger != AttentionTrigger) then GivenBack(s, n, t)
              else if lands then Committed(s, n, t) && n.store.journal == s.store.journal + StartEvents(r) else n == s
  {
    hide JournalInv, CommitRefused, StartEvents, GivenBack, ApplyBatch, Committed, Started, AddChildEdge, WakesAfterStart, Moved, UntrackStart, ReleaseReservation;
    ReservationGivenBack(s, t);
    if t in s.runs.reservations && !CommitRefused(s, s.runs.reservations[t], cancelled) && Append(s, StartEvents(s.runs.reservations[t]), storeOk).Some? {
      CommitLands(s, t, cancelled, pending, storeOk);
    }
  }

  /** What holds a commit back: its own context, a stop over it, a close, a record that moved on, a fence, a handoff, work being
      delivered to it, or another waiter for the generation. */
  lemma CommitRefusedExactly(s: State, r: Reservation, cancelled: bool)
    ensures CommitRefused(s, r, cancelled) <==>
            !(&& !cancelled && !StopCovers(s, r.id) && (s.closing ==> r.trigger == AttentionTrigger)
              && (r.create ==> r.id !in s.store.durable && r.generation == 1 && !LaneCovers(s, r.parent))
              && (!r.create ==> r.id in s.store.durable && s.store.durable[r.id].phase == Idle && r.generation == s.store.durable[r.id].generation + 1
                                && !Fenced(s.store.durable, s.store.durable[r.id].parent))
              && !LaneCovers(s, r.id) && !DeliveryWork(s, r.id, true)
              && (r.waiter != 0 ==> r.generation !in WaitersAt(s.runs.live, r.id)))
  {
    hide StopCovers, LaneCovers, DeliveryWork, Fenced;
  }

  /** The runtime of a delegate once its run is open: the lease, readiness, runtimes, what the run has shown, and its waiter. */
  ghost predicate OpenedLive(was: Live, live: Live, r: Reservation) {
    && live.binding.Some?
    && var b := live.binding.value;
    && b.lease == Lease(r.id, r.generation) && (b.ready <==> r.trigger == AttentionTrigger) && b.runtime == r.runtime && b.input == 0
    && b.evidence == Evidence(r.trigger != AttentionTrigger, false, false, None)
    && live.runtime == (if r.runtime != 0 then r.runtime else was.runtime) && live.quiet == 0 && live.steers == was.steers
    && live.recovery == was.recovery && live.finalRecovery == was.finalRecovery && live.runnerPending == was.runnerPending
    && (forall g :: g in live.waiters <==> g in was.waiters || (g == r.generation && r.waiter != 0))
    && (forall g | g in live.waiters :: live.waiters[g] == if g == r.generation && r.waiter != 0 then r.waiter else was.waiters[g])
  }

  /** The reservation's waiter is registered for the generation, and no other waiter moves. */
  predicate WaiterRegistered(s: State, n: State, r: Reservation) {
    && (r.waiter in s.post.waiters ==> r.waiter in n.post.waiters && n.post.waiters[r.waiter] == Registered(r.id, r.generation))
    && (forall w | w in s.post.waiters && w != r.waiter :: w in n.post.waiters && n.post.waiters[w] == s.post.waiters[w])
  }

  /** An attention start leaves the delegate owing exactly the wakes still pending; no other start and no other delegate's wakes change. */
  ghost predicate WakesLeft(s: State, n: State, r: Reservation, pending: set<nat>) {
    && WakesOf(n, r.id) == (if r.trigger == AttentionTrigger then pending - {0} else WakesOf(s, r.id))
    && forall i | i != r.id :: WakesOf(n, i) == WakesOf(s, i)
  }

  ghost predicate Opened(s: State, n: State, r: Reservation, pending: set<nat>) {
    && n.runs.live.Keys == s.runs.live.Keys + {r.id} && OpenedLive(if r.id in s.runs.live then s.runs.live[r.id] else NO_LIVE, n.runs.live[r.id], r)
    && (forall i | i in s.runs.live && i != r.id :: n.runs.live[i] == s.runs.live[i])
    && WaiterRegistered(s, n, r) && WakesLeft(s, n, r, pending)
  }

  lemma CommitParts(s: State, t: Token, cancelled: bool, pending: set<nat>, storeOk: bool)
    requires CommitStart(s, t, cancelled, pending, storeOk).store.journal != s.store.journal
    ensures t in s.runs.reservations
    ensures var n, r := CommitStart(s, t, cancelled, pending, storeOk), s.runs.reservations[t];
            && n.runs.live == Started(s.runs.live, r) && n.post.waiters == Moved(s.post.waiters, r.waiter, Registered(r.id, r.generation))
            && n.post.attention == WakesAfterStart(s.post.attention, r, pending)
  {
    hide CommitRefused, StartEvents, ApplyBatch, AddChildEdge, UntrackStart, Started, SameSteers, OnlyStarts, Moved, WakesAfterStart;
  }

  lemma StartedIs(live: map<Id, Live>, r: Reservation)
    ensures var n, was := Started(live, r), if r.id in live then live[r.id] else NO_LIVE;
            n.Keys == live.Keys + {r.id} && OpenedLive(was, n[r.id], r) && forall i | i in live && i != r.id :: n[i] == live[i]
  {
  }

  /** A landed commit opens exactly its run: ready only when attention started it, owing a report otherwise, its waiter registered,
      and the delegate owing the wakes still pending. */
  lemma CommitOpensRun(s: State, t: Token, cancelled: bool, pending: set<nat>, storeOk: bool)
    requires CommitStart(s, t, cancelled, pending, storeOk).store.journal != s.store.journal
    ensures t in s.runs.reservations && Opened(s, CommitStart(s, t, cancelled, pending, storeOk), s.runs.reservations[t], pending)
  {
    CommitParts(s, t, cancelled, pending, storeOk);
    var n, r := CommitStart(s, t, cancelled, pending, storeOk), s.runs.reservations[t];
    hide CommitStart, Started, OpenedLive, Moved, WakesAfterStart, WakesLeft, WaiterRegistered;
    StartedIs(s.runs.live, r);
    PendingWakesLeft(s, n, r, pending);
    WaiterMovesOn(s, n, r);
  }

  lemma PendingWakesLeft(s: State, n: State, r: Reservation, pending: set<nat>)
    requires n.post.attention == WakesAfterStart(s.post.attention, r, pending)
    ensures WakesLeft(s, n, r, pending)
  {
  }

  lemma WaiterMovesOn(s: State, n: State, r: Reservation)
    requires n.post.waiters == Moved(s.post.waiters, r.waiter, Registered(r.id, r.generation))
    ensures WaiterRegistered(s, n, r)
  {
  }

  // ---- Runtimes ----

  predicate Unowned(s: State, id: Id, runtime: Runtime) {
    forall i | i in s.runs.live && i != id ::
      s.runs.live[i].runtime != runtime && (s.runs.live[i].binding.Some? ==> s.runs.live[i].binding.value.runtime != runtime)
  }

  /** Nothing resident conflicts with it: neither another runtime of the delegate nor another delegate with this one. */
  predicate Attachable(s: State, id: Id, runtime: Runtime) {
    && runtime != 0 && !s.closing && !LaneCovers(s, id) && Unowned(s, id, runtime)
    && (id in s.runs.live ==> s.runs.live[id].runtime == 0 || s.runs.live[id].runtime == runtime)
  }

  /** A running, unstopped run that is not ready yet, or was started by attention, takes its runtime; it keeps everything else. */
  lemma RuntimeAttached(s: State, l: Lease, runtime: Runtime)
    ensures var n := AttachRuntime(s, l, runtime);
            if Attachable(s, l.id, runtime) && ExactLease(s, l) && s.store.durable[l.id].phase == Running && s.store.durable[l.id].pendingStop == 0
               && !s.runs.live[l.id].recovery && (s.runs.live[l.id].binding.value.ready ==> s.store.durable[l.id].trigger == AttentionTrigger)
               && (s.runs.live[l.id].binding.value.runtime == 0 || s.runs.live[l.id].binding.value.runtime == runtime)
            then && n.runs.live.Keys == s.runs.live.Keys
                 && n.runs.live[l.id] == s.runs.live[l.id].(runtime := runtime, binding := Some(s.runs.live[l.id].binding.value.(runtime := runtime)))
                 && forall i | i in s.runs.live && i != l.id :: n.runs.live[i] == s.runs.live[i]
            else n == s
  {
    hide LaneCovers, SameSteers, EvidenceGrows, SameWaiters, SameLeases;
  }

  lemma IdleRuntimeAttached(s: State, id: Id, runtime: Runtime)
    ensures var n, was := AttachIdleRuntime(s, id, runtime), if id in s.runs.live then s.runs.live[id] else NO_LIVE;
            if Attachable(s, id, runtime) && id in s.store.durable && s.store.durable[id].phase == Idle && s.store.durable[id].resumable
               && s.store.durable[id].pendingStop == 0 && was.binding.None? && !was.recovery
            then n.runs.live == s.runs.live[id := was.(runtime := runtime)] else n == s
  {
    hide LaneCovers, SameSteers, EvidenceGrows, SameWaiters, SameLeases;
  }

  // ---- The first input ----

  /** A run the owner started takes its first input once it has a runtime, once, while it is neither ready nor held back. */
  lemma InputBegun(s: State, l: Lease)
    ensures var n := BeginStartInput(s, l);
            if ExactLease(s, l) && s.store.durable[l.id].phase == Running && s.store.durable[l.id].pendingStop == 0 && s.store.durable[l.id].trigger != AttentionTrigger
               && !s.runs.live[l.id].recovery && !s.runs.live[l.id].binding.value.ready && s.runs.live[l.id].binding.value.runtime != 0
               && s.runs.live[l.id].binding.value.input == 0
            then && n.nextToken == s.nextToken + 1 && n.runs.inputs == s.runs.inputs[n.nextToken := l]
                 && n.runs.live == s.runs.live[l.id := s.runs.live[l.id].(binding := Some(s.runs.live[l.id].binding.value.(input := n.nextToken)))]
            else n == s
  {
    hide SameSteers, EvidenceGrows, SameWaiters, SameLeases;
  }

  /** The input claim that the run still names. */
  predicate InputHeld(s: State, t: Token) {
    t in s.runs.inputs && ExactLease(s, s.runs.inputs[t]) && s.runs.live[s.runs.inputs[t].id].binding.value.input == t
  }

  /** A run that may still become ready through this input. */
  predicate InputOpen(s: State, t: Token)
    requires InputHeld(s, t)
  {
    var l := s.runs.inputs[t];
    && s.store.durable[l.id].phase == Running && s.store.durable[l.id].trigger != AttentionTrigger && !s.runs.live[l.id].recovery
    && !s.runs.live[l.id].binding.value.ready && s.runs.live[l.id].binding.value.runtime != 0
  }

  /** A committed input readies its run; an uncommitted one ends it as failed; a stop ends it as stopped. The claim goes in each case. */
  lemma InputCompleted(s: State, t: Token, committed: bool, failure: Finish, now: nat, storeOk: bool)
    ensures var n := CompleteStartInput(s, t, committed, failure, now, storeOk);
            if !InputHeld(s, t) then n == s
            else
              var l := s.runs.inputs[t];
              var taken := (TakenKeepsLease(s, t); Taken(s, t));
              if s.store.durable[l.id].phase == Stopping then n == FinishWith(taken, l, [StoppedFinishEvent(l, None, now)], storeOk, LatchRecovery)
              else if !InputOpen(s, t) then n == taken
              else if committed then n == taken.(runs := taken.runs.(live := n.runs.live)) && n.runs.live[l.id].binding.Some?
                                     && n.runs.live[l.id] == taken.runs.live[l.id].(binding := Some(taken.runs.live[l.id].binding.value.(ready := true)))
                                     && forall i | i != l.id && i in s.runs.live :: i in n.runs.live && n.runs.live[i] == s.runs.live[i]
              else n == FinishWith(taken, l, StartFailureEvents(l, failure, now), storeOk, LatchRecovery)
  {
    hide FinishWith, StoppedFinishEvent, StartFailureEvents, OnlyRunEnds, SteersReleased, EvidenceGrows, SameWaiters, OnlyGeneration;
  }

  /** Taking the input claim up touches nothing else of the run. */
  lemma InputTakenUp(s: State, t: Token)
    requires InputHeld(s, t)
    ensures var n, l := Taken(s, t), s.runs.inputs[t];
            && n.runs.inputs == s.runs.inputs - {t} && n.runs.live.Keys == s.runs.live.Keys
            && n.runs.live[l.id] == s.runs.live[l.id].(binding := Some(s.runs.live[l.id].binding.value.(input := 0)))
            && forall i | i in s.runs.live && i != l.id :: n.runs.live[i] == s.runs.live[i]
  {
    hide LiveKept;
  }

  /** What a failed start journals: its own packet or one of its reason, its own outcome or a failure, and its own time if it has one. */
  lemma StartFailureSays(l: Lease, failure: Finish, now: nat)
    ensures var batch := StartFailureEvents(l, failure, now);
            && |batch| == 2 && batch[0].TerminalPrepared? && batch[0].id == l.id && batch[0].generation == l.generation
            && (if failure.packet.Some? then batch[0].packet == failure.packet.value else batch[0].packet.kind == TerminalErrorPacket)
            && batch[1].RunFinished? && batch[1].id == l.id && batch[1].generation == l.generation && batch[1].disposition == TerminalErrorRun
            && batch[1].outcome.reason == failure.reason && batch[1].outcome.exhaustion.None?
            && batch[1].outcome.status == (if failure.outcome.Some? then failure.outcome.value else Failed)
            && batch[1].outcome.endedAt == (if failure.endedAt != 0 then failure.endedAt else now) && batch[1].did == Some(Report(l.id, l.generation))
  {
  }

  /** A committed start that cannot be built is failed, and closed for good when asked; a stop ends it as stopped, its runtime given up
      to the close that names it. */
  lemma CommittedFailed(s: State, l: Lease, failure: Finish, close: bool, forClose: Runtime, now: nat, storeOk: bool)
    ensures var n := FailCommitted(s, l, failure, close, forClose, now, storeOk);
            if !ExactLease(s, l) then n == s
            else
              var a, live := s.store.durable[l.id], s.runs.live[l.id];
              if a.phase == Stopping then
                var ended := FinishWith(s, l, [StoppedFinishEvent(l, None, now)], storeOk, LatchRecovery);
                var gone := close && forClose != 0 && live.runtime == forClose && live.binding.value.runtime == forClose
                            && l.id in ended.runs.live && ended.runs.live[l.id].binding.None? && ended.runs.live[l.id].runtime == forClose;
                n == (if gone then ended.(runs := ended.runs.(live := ended.runs.live[l.id := ended.runs.live[l.id].(runtime := 0)])) else ended)
              else if a.phase == Running && !live.recovery && !live.binding.value.ready then
                n == FinishWith(s, l, StartFailureEvents(l, failure, now) + (if close then [ResumabilityClosed(l.id)] else []), storeOk, LatchRecovery)
              else n == s
  {
    hide FinishWith, StoppedFinishEvent, StartFailureEvents, OnlyRunEnds, SteersReleased, EvidenceGrows, SameWaiters, OnlyGeneration;
  }
}
