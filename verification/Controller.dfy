/** The controller object: its tables in place, and the methods that change them, each proved against its step. */
module Controllers {
  import SteerProjection
  import opened Types
  import opened Tree
  import opened Journal
  import opened JournalLaws
  import opened State
  import opened Settle
  import opened Finishing
  import opened Starting
  import opened Claims
  import opened Delivering
  import opened Stopping
  import opened Fences
  import opened Machine
  import opened Effects
  import opened Invariants
  import opened Exclusive
  import opened Carriers
  import opened Reclaim
  import opened Selecting
  import opened Safety
  import opened Driving
  import opened Reconciling
  import StopOutcomes

  /** Above `i` everything is above its parent. */
  lemma StepUp(t: Shape, i: Id)
    requires WellFounded(t) && i in t
    ensures forall r | r != i :: Under(t, i, r) <==> t[i].parent != NO_ID && Under(t, t[i].parent, r)
    ensures t[i].parent != NO_ID ==> t[i].parent in t && t[t[i].parent].born < t[i].born
  {
  }

  lemma ActiveAdds(live: map<Id, Live>, done: set<Id>, id: Id)
    ensures ActiveIn(live, done + {id}) == ActiveIn(live, done) + (if LeaseAt(live, id).Some? then {LeaseAt(live, id).value} else {})
  {
  }

  lemma StartsAdd(t: map<Token, Reservation>, done: set<Id>, id: Id)
    ensures StartsIn(t, done + {id}) == StartsIn(t, done) + StartsIn(t, {id})
  {
  }

  lemma WorkAdds(t: map<Token, Work>, done: set<Id>, id: Id)
    ensures WorkIn(t, done + {id}) == WorkIn(t, done) + WorkIn(t, {id})
  {
  }

  function WaitersOf(keys: set<DeliveryId>, claims: map<DeliveryId, Token>, parcels: map<Token, Parcel>): set<Token> {
    set k | k in keys && k in claims && claims[k] in parcels :: parcels[claims[k]].waiter
  }

  lemma TouchIs(claims: map<DeliveryId, Token>, parcels: map<Token, Parcel>, members: set<Id>, k: DeliveryId)
    requires k in claims
    ensures k in ClaimsIn(claims, parcels, members) <==>
            claims[k] in parcels && (parcels[claims[k]].delegate in members || parcels[claims[k]].owner in members)
  {
  }

  lemma OneMoreWaiter(keys: set<DeliveryId>, claims: map<DeliveryId, Token>, parcels: map<Token, Parcel>, k: DeliveryId)
    requires k in claims && claims[k] in parcels
    ensures WaitersOf(keys + {k}, claims, parcels) == WaitersOf(keys, claims, parcels) + {parcels[claims[k]].waiter}
  {
  }

  lemma AllWaiters(claims: map<DeliveryId, Token>, parcels: map<Token, Parcel>, members: set<Id>)
    ensures WaitersOf(ClaimsIn(claims, parcels, members), claims, parcels) == WaitersIn(claims, parcels, members)
  {
  }

  lemma OweOne(ws: map<Token, WaiterState>, owed: set<Token>, w: Token)
    ensures var x := OweAll(ws, owed); OweAll(ws, owed + {w}) == if w in x && x[w].Claimed? then x[w := Owed] else x
  {
  }

  /** Exactly one actor controls a delegate: its own parent's current run, or the root for a delegate at the root.
      Nobody reaches a grandchild directly. */
  lemma OneActorControls(s: State, a: Option<Lease>, b: Option<Lease>, target: Id)
    requires Authorized(s, a, target)
    ensures Authorized(s, b, target) ==> a == b
    ensures a.Some? ==> ExactLease(s, a.value) && forall i | Authorized(s, a, i) :: s.store.durable[i].parent == a.value.id
    ensures a.None? ==> forall i | Authorized(s, a, i) :: s.store.durable[i].parent == NO_ID
  {
  }

  lemma StartIsWritten(r: Reservation)
    ensures StartEvents(r) != []
  {
  }

  lemma HeldCoversItself(s: State, id: Id)
    requires id != NO_ID && id in s.guards.laneHandoffs
    ensures LaneCovers(s, id)
  {
    assert Under(ShapeOf(s.store.durable), id, id);
  }

  /** A plan that is still current, not received yet, that no stop refuses and whose owner is not starting on an attention. */
  predicate Admittable(s: State, p: Plan) {
    !HasReceipt(s, p.did) && PlanCurrent(s, p) && !DeliveryStopped(s, p.delegate, p.owner) && !(p.owner != NO_ID && AttentionReserved(s, p.owner))
  }

  class Controller {
    var store: Store
    var runs: Runs
    var tables: Tables
    var post: Post
    var guards: Guards
    var stop: Option<StopState>
    var closing: bool
    var nextToken: Token
    const limits: Limits

    /** The controller's state as one value. */
    function View(): (s: State)
      reads this
    {
      State(store, runs, tables, post, guards, stop, closing, nextToken, limits)
    }

    ghost predicate Valid()
      reads this
    {
      Inv(View())
    }

    constructor (limits: Limits)
      ensures Valid() && View() == Init(limits)
    {
      hide Inv;
      store := Store([], map[], map[]);
      runs := Runs(map[], map[], map[], 0, 0, {});
      tables := Tables(map[], map[], map[], map[], map[], map[], map[]);
      post := Post(map[], map[], map[], map[], map[]);
      guards := Guards({}, map[], map[], map[], map[]);
      stop, closing, nextToken := None, false, 0;
      this.limits := limits;
      new;
      InitHolds(limits);
    }

    lemma Wellfounded()
      requires Valid()
      ensures WellFounded(ShapeOf(store.durable)) && IndexExact(store.children, ShapeOf(store.durable)) && NO_ID !in store.durable
      ensures WellFormed(store.durable, |store.journal|)
    {
      hide StopAlwaysWins, BindInv, ResInv, SettleInv, TokInv, CapInv, TrackInv, StopShape, Fold, AggregateOk;
      assert NO_ID !in ShapeOf(store.durable);
    }

    // ---- Journal ----

    /** The store takes the batch whole, or nothing changes. */
    method AppendBatch(batch: seq<Event>, storeOk: bool) returns (ok: bool)
      modifies this`store
      ensures ok <==> Append(old(View()), batch, storeOk).Some?
      ensures View() == if ok then Append(old(View()), batch, storeOk).value else old(View())
    {
      hide Apply;
      var folded := ApplyBatch(store.durable, |store.journal|, batch);
      ok := storeOk && folded.Some?;
      if ok { store := store.(journal := store.journal + batch, durable := folded.value); }
    }

    // ---- Walks up the tree ----

    /** Walking the parent chain finds the nearest ancestor that refuses work beneath it. */
    method AncestorFence(parent: Id) returns (blocked: bool)
      requires Valid()
      ensures blocked == Fenced(store.durable, parent)
    {
      Wellfounded();
      hide Inv;
      var id := parent;
      while id != NO_ID
        invariant Fenced(store.durable, parent) == Fenced(store.durable, id)
        decreases if id in store.durable then store.durable[id].born + 1 else 0
      {
        if id !in store.durable || !store.durable[id].resumable || store.durable[id].pendingStop != 0 { return true; }
        assert ShapeOf(store.durable)[id].parent == store.durable[id].parent;
        id := store.durable[id].parent;
      }
      return false;
    }

    /** The delegate or an ancestor is the root of a held handoff. */
    method LaneCovered(delegate: Id) returns (covered: bool)
      requires Valid()
      ensures covered == LaneCovers(View(), delegate)
      decreases if delegate in store.durable then store.durable[delegate].born + 1 else 0
    {
      hide Inv;
      if delegate == NO_ID || guards.laneHandoffs == {} { return false; }
      ghost var shape := ShapeOf(store.durable);
      if delegate in guards.laneHandoffs {
        assert Under(shape, delegate, delegate);
        return true;
      }
      if delegate !in store.durable { return false; }
      Wellfounded();
      StepUp(shape, delegate);
      covered := LaneCovered(store.durable[delegate].parent);
    }

    /** Walking the parent chain finds a delegate whose runtime is being reclaimed. */
    method ReclamationCovers(delegate: Id) returns (covered: bool)
      requires Valid() && delegate != NO_ID
      ensures covered == Reclaimed(View(), delegate)
    {
      hide Inv;
      Wellfounded();
      ghost var shape := ShapeOf(store.durable);
      var id := delegate;
      while id != NO_ID
        invariant forall r: Id | r in guards.reclaiming :: Under(shape, delegate, r) <==> (id != NO_ID && Under(shape, id, r))
        decreases if id in store.durable then store.durable[id].born + 1 else 0
      {
        if id in guards.reclaiming {
          assert Under(shape, id, id);
          return true;
        }
        if id !in store.durable { return false; }
        StepUp(shape, id);
        id := store.durable[id].parent;
      }
      return false;
    }

    // ---- Admission ----

    method ExactLeaseHeld(l: Lease) returns (ok: bool)
      ensures ok == ExactLease(View(), l)
    {
      ok := OpenRun(store.durable, l.id, l.generation) && l.id in runs.live && runs.live[l.id].binding.Some? && runs.live[l.id].binding.value.lease == l;
    }

    method AuthorizeMutation(actor: Option<Lease>, target: Id) returns (ok: bool)
      ensures ok == Authorized(View(), actor, target)
    {
      if target !in store.durable { return false; }
      var parent := store.durable[target].parent;
      if parent == NO_ID { return actor.None?; }
      if actor.None? { return false; }
      var exact := ExactLeaseHeld(actor.value);
      return exact && actor.value.id == parent;
    }

    /** A lease may take new work when nothing above, around or within its run holds it back. */
    method AdmitLease(l: Lease) returns (ok: bool)
      requires Valid()
      ensures ok == Admitted(View(), l)
    {
      hide Inv, Under;
      var exact := ExactLeaseHeld(l);
      if closing || !exact { return false; }
      KnownIsNamed(l.id);
      var reclaimed := ReclamationCovers(l.id);
      var a, v := store.durable[l.id], runs.live[l.id];
      var fenced := AncestorFence(a.parent);
      return !reclaimed && !v.recovery && a.pendingStop == 0 && a.resumable && v.binding.value.ready && !fenced && a.phase == Running;
    }

    lemma KnownIsNamed(id: Id)
      requires Valid() && id in store.durable
      ensures id != NO_ID
    {
      hide Inv;
      Wellfounded();
    }

    // ---- Stopping ----

    /** Leases, starts and jobs of the members, gathered delegate by delegate. */
    method GatherMembers(order: seq<Id>) returns (active: set<Lease>, starts: set<Token>, jobs: set<Token>)
      ensures var members := IdsOf(order);
              active == ActiveIn(runs.live, members) && starts == StartsIn(runs.reservations, members) && jobs == WorkIn(tables.work, members)
    {
      active, starts, jobs := {}, {}, {};
      ghost var done: set<Id> := {};
      for k := 0 to |order|
        invariant done == IdsOf(order[..k])
        invariant active == ActiveIn(runs.live, done) && starts == StartsIn(runs.reservations, done) && jobs == WorkIn(tables.work, done)
      {
        var id := order[k];
        ActiveAdds(runs.live, done, id);
        StartsAdd(runs.reservations, done, id);
        WorkAdds(tables.work, done, id);
        if id in runs.live && runs.live[id].binding.Some? { active := active + {runs.live[id].binding.value.lease}; }
        starts := starts + set t | t in runs.reservations && runs.reservations[t].id in {id};
        jobs := jobs + set t | t in tables.work && tables.work[t].owner.id in {id};
        assert order[..k + 1] == order[..k] + [id];
        done := done + {id};
      }
      assert order[..|order|] == order;
    }

    /** Claims that touch a member go, and their waiters with them to the cancel plan. */
    method DropMemberClaims(members: set<Id>)
      modifies this`post
      ensures post == old(post).(claims := old(post.claims) - ClaimsIn(old(post.claims), old(post.parcels), members),
                                 waiters := OweAll(old(post.waiters), WaitersIn(old(post.claims), old(post.parcels), members)))
    {
      var parcels, todo := post.parcels, post.claims.Keys;
      ghost var touched := ClaimsIn(post.claims, parcels, members);
      ghost var gone: set<DeliveryId>, owed: set<Token> := {}, {};
      assert OweAll(post.waiters, owed) == post.waiters;
      hide OweAll, ClaimsIn;
      while todo != {}
        invariant todo <= old(post.claims).Keys && gone <= touched && gone !! todo && touched <= gone + todo
        invariant owed == WaitersOf(gone, old(post.claims), parcels)
        invariant post == old(post).(claims := old(post.claims) - gone, waiters := OweAll(old(post.waiters), owed))
      {
        var k :| k in todo;
        todo := todo - {k};
        TouchIs(old(post.claims), parcels, members, k);
        var t := post.claims[k];
        if t in parcels && (parcels[t].delegate in members || parcels[t].owner in members) {
          var w := parcels[t].waiter;
          OweOne(old(post.waiters), owed, w);
          OneMoreWaiter(gone, old(post.claims), parcels, k);
          gone, owed := gone + {k}, owed + {w};
          post := post.(claims := post.claims - {k},
                        waiters := if w in post.waiters && post.waiters[w].Claimed? then post.waiters[w := Owed] else post.waiters);
          assert post.claims == old(post.claims) - gone;
        }
      }
      assert gone == touched;
      AllWaiters(old(post.claims), parcels, members);
    }

    method AttentionStartIn(members: set<Id>) returns (blocked: bool)
      ensures blocked == AttentionBlocks(View(), members)
    {
      var todo := runs.reservations.Keys;
      while todo != {}
        invariant todo <= runs.reservations.Keys
        invariant forall t | t in runs.reservations && t !in todo :: !(runs.reservations[t].trigger == AttentionTrigger && runs.reservations[t].id in members)
      {
        var t :| t in todo;
        if runs.reservations[t].trigger == AttentionTrigger && runs.reservations[t].id in members { return true; }
        todo := todo - {t};
      }
      return false;
    }

    /** The stop's record of everything in flight that touches a member. */
    method TakeIntoStop(target: Id, members: set<Id>)
      modifies this`stop, this`post
      ensures stop == Some(Snapshot(old(View()), |store.journal|, target, members))
      ensures post == old(post).(claims := old(post.claims) - ClaimsIn(old(post.claims), old(post.parcels), members),
                                 waiters := OweAll(old(post.waiters), WaitersIn(old(post.claims), old(post.parcels), members)))
    {
      hide ActiveIn, StartsIn, WorkIn, ReceiptsIn, QuietsIn, SteeringIn, ModelsIn, SettlementsIn, WatchesIn, ClaimsIn, WaitersIn, OweAll;
      var order := LeafFirstOrder(ShapeOf(store.durable), members);
      SameMembers(order, members);
      var active, starts, jobs := GatherMembers(order);
      stop := Some(StopState(|store.journal|, target, members, active, starts, jobs, ReceiptsIn(post.receipts, members), QuietsIn(tables.quiets, members),
                             SteeringIn(tables.steering, members), ModelsIn(tables.models, members), SettlementsIn(tables.settlements, members),
                             WatchesIn(tables.enqueues, members), WatchesIn(tables.deliveries, members)));
      DropMemberClaims(members);
    }

    /** Fences the target's subtree durably, and takes everything in flight beneath it into the stop. */
    method StopSubtree(actor: Option<Lease>, target: Id, allowClosing: bool, storeOk: bool) returns (stopped: bool)
      requires Valid()
      modifies this
      ensures View() == Stopping.StopSubtree(old(View()), actor, target, allowClosing, storeOk)
      ensures Valid() && stopped == (old(stop).None? && stop.Some?)
    {
      hide Inv, Under, Next, ActiveIn, StartsIn, WorkIn, ReceiptsIn, QuietsIn, SteeringIn, ModelsIn, SettlementsIn, WatchesIn, ClaimsIn, WaitersIn, OweAll, Subtree,
           AttentionBlocks, Authorized, Append, ApplyBatch, Snapshot, Stopping.StopSubtree;
      ghost var s := View();
      StopKeepsValid(s, actor, target, allowClosing, storeOk);
      StopCases(s, actor, target, allowClosing, storeOk);
      if stop.Some? || (closing && !allowClosing) { return false; }
      var authorized := AuthorizeMutation(actor, target);
      if !authorized { return false; }
      KnownTarget(actor, target);
      Wellfounded();
      var members := SubtreeMembers(store.children, ShapeOf(store.durable), target);
      var blocked := AttentionStartIn(members);
      if blocked { return false; }
      stopped := AppendBatch([StopRequested(target)], storeOk);
      if !stopped { return false; }
      SnapshotOfTables(s, View(), |store.journal|, target, members);
      TakeIntoStop(target, members);
    }

    // ---- Starting ----

    /** Somebody is delivering to the owner. */
    method DeliveryWorkFor(owner: Id, overlookRefused: bool) returns (busy: bool)
      ensures busy == DeliveryWork(View(), owner, overlookRefused)
    {
      if owner == NO_ID { return false; }
      var keys := post.claims.Keys;
      while keys != {}
        invariant keys <= post.claims.Keys
        invariant forall k | k in post.claims && k !in keys && post.claims[k] in post.parcels ::
                    !(post.parcels[post.claims[k]].owner == owner && !(overlookRefused && post.parcels[post.claims[k]].refused))
      {
        var k :| k in keys;
        var t := post.claims[k];
        if t in post.parcels && post.parcels[t].owner == owner && !(overlookRefused && post.parcels[t].refused) { return true; }
        keys := keys - {k};
      }
      var todo := post.receipts.Keys;
      while todo != {}
        invariant todo <= post.receipts.Keys && forall t | t in post.receipts && t !in todo :: post.receipts[t].owner != owner
      {
        var t :| t in todo;
        if post.receipts[t].owner == owner { return true; }
        todo := todo - {t};
      }
      return false;
    }

    method GiveReservationBack(t: Token)
      modifies this`runs, this`stop, this`post
      ensures View() == Starting.ReleaseReservation(old(View()), t)
    {
      if t in runs.reservations {
        var r := runs.reservations[t];
        stop := UntrackStart(stop, t);
        post := post.(waiters := Moved(post.waiters, r.waiter, Discarded));
        if r.trigger == AttentionTrigger { runs := runs.(reservations := runs.reservations - {t}, drives := Down(runs.drives)); }
        else { runs := runs.(reservations := runs.reservations - {t}, turns := Down(runs.turns)); }
      }
    }

    /** Everything that refuses a commit before the journal is asked. */
    method RefusesCommit(r: Reservation, cancelled: bool) returns (refused: bool)
      requires Valid()
      ensures refused == CommitRefused(View(), r, cancelled)
    {
      hide Inv, LaneCovers, Fenced, DeliveryWork;
      if cancelled || (stop.Some? && r.id in stop.value.members) || (closing && r.trigger != AttentionTrigger) { return true; }
      if r.create {
        if r.id in store.durable || r.generation != 1 { return true; }
      } else {
        if r.id !in store.durable || store.durable[r.id].phase != Idle || store.durable[r.id].generation + 1 != r.generation { return true; }
        var fenced := AncestorFence(store.durable[r.id].parent);
        if fenced { return true; }
      }
      var covered := LaneCovered(r.id);
      if covered { return true; }
      if r.create {
        covered := LaneCovered(r.parent);
        if covered { return true; }
      }
      var busy := DeliveryWorkFor(r.id, true);
      return busy || (r.waiter != 0 && r.id in runs.live && r.generation in runs.live[r.id].waiters);
    }

    /** A reservation becomes an open run, or goes back whole. */
    method CommitStart(t: Token, cancelled: bool, pending: set<nat>, storeOk: bool) returns (committed: bool)
      requires Valid()
      modifies this
      ensures View() == Starting.CommitStart(old(View()), t, cancelled, pending, storeOk)
      ensures Valid() && (committed <==> |store.journal| > |old(store).journal|)
    {
      hide Inv, CommitRefused, Append, ApplyBatch, ReleaseReservation, Started, UntrackStart, AddChildEdge, StartEvents, WakesAfterStart, Moved;
      CommitKeepsValid(View(), t, cancelled, pending, storeOk);
      if t !in runs.reservations { return false; }
      var r := runs.reservations[t];
      var refused := RefusesCommit(r, cancelled);
      if refused {
        GiveReservationBack(t);
        return false;
      }
      StartIsWritten(r);
      committed := AppendBatch(StartEvents(r), storeOk);
      if !committed {
        if r.trigger != AttentionTrigger { GiveReservationBack(t); }
        return false;
      }
      runs := runs.(reservations := runs.reservations - {t},
                    live := Started(runs.live, r));
      stop := UntrackStart(stop, t);
      if r.create { store := store.(children := AddChildEdge(store.children, r.id, r.parent)); }
      post := post.(waiters := Moved(post.waiters, r.waiter, Registered(r.id, r.generation)),
                    attention := WakesAfterStart(post.attention, r, pending));
    }

    // ---- Model requests ----

    /** The admitted steers a request did not bind, in order. */
    method KeepUnbound(steers: seq<Steer>, bound: set<nat>) returns (kept: seq<Steer>)
      ensures kept == Unbind(steers, bound)
    {
      kept := [];
      for k := 0 to |steers|
        invariant kept == Unbind(steers[..k], bound)
      {
        assert steers[..k + 1][..k] == steers[..k];
        if steers[k].entry !in bound { kept := kept + [steers[k]]; }
      }
      assert steers[..|steers|] == steers;
    }

    /** Steers of the run the claim does not hold: pending ones, and ones still being written. */
    method CollectLate(c: ModelClaim) returns (late: set<nat>)
      ensures late == LateIds(View(), c)
    {
      late := {};
      var steers := if c.lease.id in runs.live then runs.live[c.lease.id].steers else [];
      for k := 0 to |steers|
        invariant late == set j | 0 <= j < k && steers[j].entry !in c.entries :: steers[j].entry
      {
        if steers[k].entry !in c.entries { late := late + {steers[k].entry}; }
      }
      ghost var pending := late;
      assert pending == set st | st in steers && st.entry !in c.entries :: st.entry;
      var todo := tables.steering.Keys;
      while todo != {}
        invariant todo <= tables.steering.Keys
        invariant late == pending + set t | t in tables.steering && t !in todo && tables.steering[t].lease == c.lease && tables.steering[t].entry !in c.entries
                                      :: tables.steering[t].entry
      {
        var t :| t in todo;
        todo := todo - {t};
        if tables.steering[t].lease == c.lease && tables.steering[t].entry !in c.entries { late := late + {tables.steering[t].entry}; }
      }
    }

    /** What a request sees: its history without late steers, the claimed ones it holds moved last in admission order. */
    ghost function Seen(s: State, t: Token, history: seq<SteerProjection.Turn>): seq<SteerProjection.Turn>
      requires t in s.tables.models
    {
      var c := s.tables.models[t];
      SteerProjection.Rest(history, c.entries, LateIds(s, c), |history|) + SteerProjection.Tail(history, c.entries, LateIds(s, c), |c.entries|)
    }

    /** A request that is still its run's binds the claimed steers its history holds: they leave, and a report is owed. */
    method CompleteModelRequest(t: Token, history: seq<SteerProjection.Turn>) returns (seen: Option<seq<SteerProjection.Turn>>)
      requires Valid()
      modifies this
      ensures View() == Claims.CompleteModel(old(View()), t, history)
      ensures seen.Some? ==> t in old(tables.models) && seen.value == Seen(old(View()), t, history)
      ensures Valid()
    {
      hide Inv, Admitted, Unbind, UntrackModel, LateIds, SteerProjection.Bound, SteerProjection.Rest, SteerProjection.Tail;
      ModelKeepsValid(View(), t, history);
      if t !in tables.models { return None; }
      var c := tables.models[t];
      var admitted := AdmitLease(c.lease);
      AdmittedIsBound(View(), c.lease);
      if !admitted || runs.live[c.lease.id].binding.value.runtime != c.runtime {
        tables := tables.(models := tables.models - {t});
        stop := UntrackModel(stop, t);
        return None;
      }
      var late := CollectLate(c);
      var projected, bound := SteerProjection.Project(history, c.entries, late);
      var v := runs.live[c.lease.id];
      var b := v.binding.value;
      var kept := KeepUnbound(v.steers, bound);
      if bound != {} { b := b.(evidence := b.evidence.(reportRequired := true)); }
      runs := runs.(live := runs.live[c.lease.id := v.(steers := kept, binding := Some(b))]);
      tables := tables.(models := tables.models - {t});
      stop := UntrackModel(stop, t);
      return Some(projected);
    }

    // ---- Finishing ----

    /** Steering claims of the delegate go, but for those a stop still waits for. */
    method DropSteering(id: Id) returns (kept: map<Token, SteerClaim>)
      ensures kept == KeptSteering(View(), id)
    {
      kept := tables.steering;
      var todo := kept.Keys;
      while todo != {}
        invariant todo <= kept.Keys <= tables.steering.Keys && forall t | t in kept :: kept[t] == tables.steering[t]
        invariant forall t | t in tables.steering && t !in todo :: t in kept <==> t in KeptSteering(View(), id)
      {
        var t :| t in todo;
        todo := todo - {t};
        if kept[t].lease.id == id && !(stop.Some? && t in stop.value.steering) { kept := kept - {t}; }
      }
    }

    method DropModels(id: Id) returns (kept: map<Token, ModelClaim>)
      ensures kept == KeptModels(View(), id)
    {
      kept := tables.models;
      var todo := kept.Keys;
      while todo != {}
        invariant todo <= kept.Keys <= tables.models.Keys && forall t | t in kept :: kept[t] == tables.models[t]
        invariant forall t | t in tables.models && t !in todo :: t in kept <==> t in KeptModels(View(), id)
      {
        var t :| t in todo;
        todo := todo - {t};
        if kept[t].lease.id == id && !(stop.Some? && t in stop.value.models) { kept := kept - {t}; }
      }
    }

    /** Claims, tracking, binding and capacity of a finished generation go together. */
    method ReleaseRun(l: Lease)
      modifies this`tables, this`stop, this`runs
      ensures View() == Finishing.ReleaseGeneration(old(View()), l)
    {
      hide KeptSteering, KeptModels, KeptSettlements, UntrackGeneration, Unbound, ReleaseGeneration, Down;
      ReleaseIs(View(), l);
      if l.id !in runs.live || runs.live[l.id].binding.None? || runs.live[l.id].binding.value.lease != l || l.id !in store.durable { return; }
      SettledAre(View(), l);
      var settled := set t | t in tables.settlements && tables.settlements[t].lease == l;
      var steering := DropSteering(l.id);
      var models := DropModels(l.id);
      var settlements := map t | t in tables.settlements && tables.settlements[t].lease.id != l.id :: tables.settlements[t];
      tables := tables.(steering := steering, models := models, settlements := settlements);
      if stop.Some? { stop := Some(stop.value.(settlements := stop.value.settlements - settled, active := stop.value.active - {l})); }
      var drive, v := store.durable[l.id].trigger == AttentionTrigger, runs.live[l.id];
      runs := runs.(inputs := runs.inputs - {v.binding.value.input}, live := runs.live[l.id := Unbound(v)],
                    turns := if drive then runs.turns else Down(runs.turns), drives := if drive then Down(runs.drives) else runs.drives);
    }

    /** The batch lands and the generation is released, or its recovery is latched. */
    method FinishRun(l: Lease, batch: seq<Event>, storeOk: bool, latch: Latch) returns (ok: bool)
      requires ExactLease(View(), l)
      modifies this
      ensures View() == Finishing.FinishWith(old(View()), l, batch, storeOk, latch)
      ensures ok <==> Append(old(View()), batch, storeOk).Some?
    {
      hide Append, ApplyBatch, ReleaseGeneration, Latched;
      ok := AppendBatch(batch, storeOk);
      if ok { ReleaseRun(l); }
      else { runs := runs.(live := runs.live[l.id := Latched(runs.live[l.id], latch)]); }
    }

    /** A quiet write in flight, or one a settlement claim waits for, holds a finish back. */
    method ReadyToFinalize(l: Lease) returns (ready: bool)
      ensures ready == FinalizationReady(View(), l)
    {
      if l.id !in runs.live || runs.live[l.id].quiet != 0 { return false; }
      var todo := tables.settlements.Keys;
      while todo != {}
        invariant todo <= tables.settlements.Keys
        invariant forall t | t in tables.settlements && t !in todo && tables.settlements[t].lease == l :: tables.settlements[t].joined !in tables.quiets
      {
        var t :| t in todo;
        if tables.settlements[t].lease == l && tables.settlements[t].joined in tables.quiets { return false; }
        todo := todo - {t};
      }
      return true;
    }

    /** The run ends by the phase it is in: as its stop, as its prepared packet, or as it says itself. */
    method FinishGeneration(l: Lease, finish: Finish, now: nat, storeOk: bool)
      requires Valid()
      modifies this
      ensures View() == Finishing.FinishGeneration(old(View()), l, finish, false, now, storeOk)
      ensures Valid()
    {
      hide Inv, FinishWith, FinalizationReady, GenerationEvents, StoppedFinishEvent;
      FinishKeepsValid(View(), l, finish, now, storeOk);
      var exact := ExactLeaseHeld(l);
      if !exact { return; }
      var a, endedAt := store.durable[l.id], if finish.endedAt != 0 then finish.endedAt else now;
      if (a.phase == Running && finish.disposition == Some(CompletedNoAction)) || runs.live[l.id].finalRecovery { return; }
      if a.phase == Running || a.phase == Stopping {
        var ready := ReadyToFinalize(l);
        if !ready { return; }
      }
      if a.phase == Stopping {
        var _ := FinishRun(l, [StoppedFinishEvent(l, finish.packet, endedAt)], storeOk, LatchTriple);
      } else if a.phase == Running || (a.phase == Settling && a.prepared.Some?) {
        var _ := FinishRun(l, GenerationEvents(a, l, finish, endedAt), storeOk, LatchTriple);
      }
    }

    // ---- Deliveries ----

    /** The receipt of a delivery; the first one should there be more. */
    method FindReceipt(did: DeliveryId) returns (found: Option<Token>)
      ensures found == ReceiptFor(View(), did)
    {
      found := None;
      var todo := post.receipts.Keys;
      while todo != {}
        invariant todo <= post.receipts.Keys
        invariant found.None? ==> forall t | t in post.receipts && t !in todo :: post.receipts[t].did != did
        invariant found.Some? ==> found.value in post.receipts && post.receipts[found.value].did == did
        invariant found.Some? ==> forall t | t in post.receipts && t !in todo && post.receipts[t].did == did :: found.value <= t
      {
        var t :| t in todo;
        if post.receipts[t].did == did && (found.None? || t < found.value) { found := Some(t); }
        todo := todo - {t};
      }
    }

    method DeliveryRefused(delegate: Id, owner: Id) returns (refused: bool)
      ensures refused == DeliveryStopped(View(), delegate, owner)
    {
      refused := closing || delegate !in store.durable || store.durable[delegate].pendingStop != 0
                 || (owner != NO_ID && (owner !in store.durable || store.durable[owner].pendingStop != 0))
                 || (stop.Some? && (delegate in stop.value.members || owner in stop.value.members));
    }

    /** A held delivery goes back to the claim that held it, while it is still its delegate's head. */
    method RestoreHeldClaim(held: Token)
      requires held in post.parcels
      modifies this`post
      ensures post == old(post).(claims := RestoreHeld(old(View()), held))
    {
      var p := post.parcels[held];
      var refused := DeliveryRefused(p.delegate, p.owner);
      post := post.(claims := post.claims - {p.did});
      if !refused && store.durable[p.delegate].queue != [] && store.durable[p.delegate].queue[0].did == p.did {
        post := post.(claims := post.claims[p.did := held]);
      }
    }

    /** A refused carrier gives its held head back and drops its own claim. */
    method Refuse(p: Plan)
      requires p.carried != [] ==> p.heldClaim in post.parcels
      modifies this`post
      ensures View() == RefuseCarrier(old(View()), p)
    {
      hide RestoreHeld;
      if p.carried == [] { return; }
      var head := p.carried[0].did;
      if head in post.claims && post.claims[head] == p.claim { RestoreHeldClaim(p.heldClaim); }
      if p.did in post.claims && post.claims[p.did] == p.claim { post := post.(claims := post.claims - {p.did}); }
    }

    /** Claims become receipts: the held head first, the batch behind it, the plan's own last. */
    method AdmitPlan(p: Plan) returns (receipt: Token)
      requires p.claim in post.parcels
      modifies this`post, this`nextToken
      ensures View() == Admit(old(View()), p) && receipt == nextToken
    {
      var cold, inline := post.parcels[p.claim].cold, p.waiter != 0 || p.callerCommitted;
      ghost var before, first := post.receipts, nextToken;
      var receipts := post.receipts;
      for k := 0 to |p.carried|
        invariant nextToken == first + k && post == old(post)
        invariant receipts == if k == 0 then before else AdmitCarried(before, p, cold, inline, first, k)
      {
        nextToken := nextToken + 1;
        var held := if k == 0 then p.heldClaim else 0;
        receipts := receipts[nextToken := Receipt(p.carried[k].did, p.delegate, p.owner, held, cold, inline, false, held)];
      }
      nextToken := nextToken + 1;
      receipt := nextToken;
      receipts := receipts[receipt := Receipt(p.did, p.delegate, p.owner, p.claim, cold, inline, false, 0)];
      post := post.(receipts := receipts,
                    claims := if p.carried == [] then post.claims - {p.did} else post.claims - {p.did, p.carried[0].did});
    }

    method AttentionStarting(owner: Id) returns (starting: bool)
      ensures starting == AttentionReserved(View(), owner)
    {
      var todo := runs.reservations.Keys;
      while todo != {}
        invariant todo <= runs.reservations.Keys
        invariant forall t | t in runs.reservations && t !in todo :: !(runs.reservations[t].id == owner && runs.reservations[t].trigger == AttentionTrigger)
      {
        var t :| t in todo;
        if runs.reservations[t].id == owner && runs.reservations[t].trigger == AttentionTrigger { return true; }
        todo := todo - {t};
      }
      return false;
    }

    method IsCurrent(p: Plan) returns (current: bool)
      ensures current == PlanCurrent(View(), p)
    {
      if p.did !in post.claims || post.claims[p.did] != p.claim || p.claim !in post.parcels || p.delegate !in store.durable { return false; }
      var c, q, n := post.parcels[p.claim], store.durable[p.delegate].queue, |p.carried|;
      return c.delegate == p.delegate && c.owner == p.owner && c.waiter == p.waiter
             && |q| > n && q[..n] == p.carried && q[n].did == p.did && q[n].owner == p.owner && q[n].packet == p.packet;
    }

    /** Refuse for good, refuse for now, or admit. */
    method DecideDelivery(p: Plan, received: bool) returns (admitted: bool)
      requires received == HasReceipt(View(), p.did) && (p.carried != [] ==> p.heldClaim in post.parcels)
      modifies this`post, this`nextToken
      ensures View() == Decide(old(View()), p)
      ensures admitted <==> Admittable(old(View()), p)
    {
      hide RefuseCarrier, Admit, PlanCurrent, DeliveryStopped, AttentionReserved;
      var current := IsCurrent(p);
      if received || !current {
        Refuse(p);
        return false;
      }
      CurrentHasParcel(View(), p);
      var refused := DeliveryRefused(p.delegate, p.owner);
      if refused {
        post := post.(claims := post.claims - {p.did});
        Refuse(p);
        return false;
      }
      if p.owner != NO_ID {
        var starting := AttentionStarting(p.owner);
        if starting {
          post := post.(parcels := post.parcels[p.claim := post.parcels[p.claim].(waiter := 0, refused := true)]);
          return false;
        }
      }
      var _ := AdmitPlan(p);
      return true;
    }

    /** A plan is admitted, retried or refused; its waiter passes to whoever executes it. A plan nobody minted changes nothing. */
    method BeginDelivery(p: Plan) returns (admitted: bool)
      requires Valid()
      modifies this
      ensures View() == Delivering.BeginDelivery(old(View()), p)
      ensures Valid() && (admitted <==> Genuine(old(View()), p) && (Retries(old(View()), p) || Admittable(old(View()), p)))
    {
      hide Inv, Genuine, RetryMatches, Decide, PlanCurrent, DeliveryStopped;
      BeginKeepsValid(View(), p);
      if !Genuine(View(), p) { return false; }
      var receipt := FindReceipt(p.did);
      if receipt.Some? {
        var r := post.receipts[receipt.value];
        var retries := r.retryable && r.claim == p.claim && r.delegate == p.delegate && r.owner == p.owner && p.waiter == 0
                       && r.delegate in store.durable && store.durable[r.delegate].queue != []
                       && store.durable[r.delegate].queue[0].did == p.did && store.durable[r.delegate].queue[0].packet == p.packet;
        RetriesIs(View(), receipt.value, p);
        if retries {
          post := post.(receipts := post.receipts[receipt.value := r.(retryable := false)]);
          return true;
        }
      }
      CarrierIsHeld(View(), p);
      admitted := DecideDelivery(p, receipt.Some?);
      if p.waiter in post.waiters && post.waiters[p.waiter].Claimed? { post := post.(waiters := post.waiters[p.waiter := Owed]); }
    }

    /** Committing acknowledges the head; abandoning gives a held head back; a failed append leaves the receipt for a retry. */
    method CompleteDelivery(t: Token, committed: bool, wake: nat, storeOk: bool) returns (ok: bool)
      requires Valid()
      modifies this
      ensures View() == Delivering.CompleteDelivery(old(View()), t, committed, wake, storeOk)
      ensures Valid() && (ok <==> t in old(post).receipts && (committed ==> |store.journal| > |old(store).journal|))
    {
      hide Inv, RestoreHeld, Append, ApplyBatch, Note, UntrackReceipt;
      CompleteKeepsValid(View(), t, committed, wake, storeOk);
      if t !in post.receipts { return false; }
      var r := post.receipts[t];
      if !committed {
        if r.held != 0 && r.did !in post.claims {
          HeldParcelKnown(View(), t);
          RestoreHeldClaim(r.held);
        }
        post := post.(receipts := post.receipts - {t});
        stop := UntrackReceipt(stop, t);
        return true;
      }
      if r.delegate !in store.durable || store.durable[r.delegate].queue == [] || store.durable[r.delegate].queue[0].did != r.did {
        post := post.(receipts := post.receipts - {t});
        stop := UntrackReceipt(stop, t);
        return false;
      }
      var known := store.durable;
      ok := AppendBatch([DeliveryAcknowledged(r.delegate, r.did)], storeOk);
      if !ok {
        post := post.(receipts := post.receipts[t := r.(retryable := true)]);
        return false;
      }
      post := post.(receipts := post.receipts - {t},
                    attention := if r.inline then post.attention else Note(post.attention, known, r.owner, wake));
      stop := UntrackReceipt(stop, t);
    }

    // ---- Lane handoffs ----

    /** Runs, starts, creations, restore windows or holds in the subtree. */
    method SubtreeIsBusy(members: set<Id>) returns (busy: bool)
      ensures busy == SubtreeBusy(View(), members)
    {
      var todo := members;
      while todo != {}
        invariant todo <= members
        invariant forall i | i in members && i !in todo :: Count(guards.laneRestores, i) == 0 && Count(guards.holds, i) == 0
        invariant forall i | i in members && i !in todo && i in store.durable ::
                    !store.durable[i].open && store.durable[i].pendingStop == 0 && store.durable[i].phase !in {Running, Settling, Stopping}
      {
        var i :| i in todo;
        if i in store.durable && (store.durable[i].open || store.durable[i].pendingStop != 0 || store.durable[i].phase in {Running, Settling, Stopping}) { return true; }
        if Count(guards.laneRestores, i) > 0 || Count(guards.holds, i) > 0 { return true; }
        todo := todo - {i};
      }
      var tokens := runs.reservations.Keys;
      while tokens != {}
        invariant tokens <= runs.reservations.Keys
        invariant forall t | t in runs.reservations && t !in tokens :: runs.reservations[t].id !in members
                    && !(runs.reservations[t].create && runs.reservations[t].parent != NO_ID && runs.reservations[t].parent in members)
      {
        var t :| t in tokens;
        var r := runs.reservations[t];
        if r.id in members || (r.create && r.parent != NO_ID && r.parent in members) { return true; }
        tokens := tokens - {t};
      }
      return false;
    }

    /** A handoff is acquired when nothing runs beneath it and no other handoff lies above or below. */
    method BeginSubtreeHandoff(id: Id) returns (acquired: bool)
      requires Valid()
      modifies this
      ensures View() == Fences.BeginHandoff(old(View()), id)
      ensures Valid() && (acquired <==> id in guards.laneHandoffs && id !in old(guards).laneHandoffs)
    {
      hide Inv, Under, Subtree, SubtreeBusy, LaneCovers;
      HandoffKeepsValid(View(), id);
      if id == NO_ID || closing { return false; }
      var covered := LaneCovered(id);
      if covered { return false; }
      Wellfounded();
      var members := SubtreeMembers(store.children, ShapeOf(store.durable), id);
      var roots := guards.laneHandoffs;
      while roots != {}
        invariant roots <= guards.laneHandoffs && (forall r | r in guards.laneHandoffs && r !in roots :: r !in members)
      {
        var r :| r in roots;
        if r in members { return false; }
        roots := roots - {r};
      }
      var busy := SubtreeIsBusy(members);
      if busy { return false; }
      if id in guards.laneHandoffs { HeldCoversItself(View(), id); }
      guards := guards.(laneHandoffs := guards.laneHandoffs + {id});
      return true;
    }

    // ---- Reconciliation ----

    /** The first stopped generation whose runner is gone, in the order of its lease, is finished on the stop's behalf. */
    method RecoverOne(now: nat, storeOk: bool) returns (tried: Option<Lease>, ghost drives: seq<Drive>)
      requires Valid()
      modifies this
      ensures View() == Driven(old(View()), drives)
      ensures Valid()
      ensures tried.None? ==> View() == old(View()) && forall l :: !StopOutcomes.Recoverable(old(View()), l)
      ensures tried.Some? ==> FirstRecoverable(old(View()), tried.value) && if storeOk then Recovered(old(View()), View(), tried.value, now) else View() == old(View())
    {
      hide Inv, After, FinishWith, Recovered;
      tried, drives := None, [];
      if stop.None? || !RecoveryReady(stop.value) { return; }
      var todo := stop.value.active;
      while todo != {}
        invariant View() == old(View()) && stop.Some? && RecoveryReady(stop.value) && todo <= stop.value.active
        invariant tried.Some? ==> StopOutcomes.Recoverable(View(), tried.value)
        invariant forall m | m in stop.value.active && m !in todo && StopOutcomes.Recoverable(View(), m) :: tried.Some? && !Earlier(m, tried.value)
      {
        var l :| l in todo;
        todo := todo - {l};
        var exact := ExactLeaseHeld(l);
        if l.id in stop.value.members && exact && store.durable[l.id].phase == Stopping && store.durable[l.id].pendingStop == stop.value.seqNo
           && runs.live[l.id].recovery && !runs.live[l.id].runnerPending && (tried.None? || Earlier(l, tried.value)) {
          tried := Some(l);
        }
      }
      if tried.Some? {
        var l := tried.value;
        RecoverySteps(View(), l, now, storeOk);
        InvKnows(View());
        RecoveryLeaves(View(), l, now, storeOk);
        drives := [Recover(l, now, storeOk)];
        DrivenOneMore(View(), [], Recover(l, now, storeOk));
        assert [] + drives == drives;
        var _ := FinishRun(l, [StoppedFinishEvent(l, None, now)], storeOk, LatchNothing);
      }
    }

    /** Open runs no runtime came back for end as lost; closed ones are forgotten; bound ones stay. */
    method LoseRuns(now: nat, answers: nat -> bool) returns (ok: bool, ended: bool, ghost drives: seq<Drive>)
      requires Valid()
      modifies this
      ensures View() == Driven(old(View()), drives)
      ensures Valid()
      ensures RunsLost(old(View()), View())
      ensures if ok then NoneLost(View()) else LossBlocked(View(), answers) && exists l :: LostRun(old(View()), l)
      ensures if ended then exists l :: LostRun(old(View()), l) else store == old(store)
    {
      hide Inv, After, LostEvents, Append, ApplyBatch, RunsLost, LostBut, RunClosed, Stuck, ShapeOf, Driven, JournalInv, StopShape, Accounted, ActiveExact;
      drives, ended := [], false;
      NothingDriven(View());
      var todo := runs.lost;
      LossBegins(View());
      while todo != {}
        invariant Valid() && View() == Driven(old(View()), drives)
        invariant RunsLost(old(View()), View()) && LostBut(View(), todo) && todo <= runs.lost
        invariant if ended then exists l :: LostRun(old(View()), l) else store == old(store)
      {
        var l :| l in todo;
        if OpenRun(store.durable, l.id, l.generation) && !(l.id in runs.live && runs.live[l.id].binding.Some? && runs.live[l.id].binding.value.lease == l) {
          var batch, storeOk := LostEvents(l, store.durable[l.id], now), answers(|store.journal|);
          InvKnows(View());
          LossStep(View(), l, now, storeOk);
          LostBefore(old(View()), View(), l);
          LostSteps(View(), l, now, storeOk);
          DrivenOneMore(old(View()), drives, Lose(l, now, storeOk));
          ghost var before := View();
          ok := AppendBatch(batch.value, storeOk);
          drives := drives + [Lose(l, now, storeOk)];
          if !ok { return false, ended, drives; }
          ended := true;
          LossEnds(old(View()), before, View(), todo, l);
        }
        if !OpenRun(store.durable, l.id, l.generation) {
          LossForgets(old(View()), View(), todo, l);
          ForgetSteps(View(), l);
          DrivenOneMore(old(View()), drives, Forget(l));
          runs := runs.(lost := runs.lost - {l});
          drives := drives + [Forget(l)];
        } else {
          LossSkips(View(), todo, l);
        }
        todo := todo - {l};
      }
      AllSeen(View());
      ok := true;
    }

    /** Admissions whose acknowledgement failed are acknowledged again for the stop, in the order of their tokens, until the store refuses. */
    method RetryAcknowledgements(wake: DeliveryId -> nat, answers: nat -> bool) returns (ok: bool, ghost drives: seq<Drive>)
      requires Valid() && stop.Some?
      modifies this
      ensures View() == Driven(old(View()), drives)
      ensures Valid()
      ensures Retried(old(View()), View(), wake)
      ensures if ok then forall t :: !Due(View(), t) else !answers(|store.journal|)
    {
      hide Inv, After, Delivering.CompleteDelivery, Retried, Retrying;
      drives := [];
      var todo := stop.value.receipts;
      RetryBegins(View(), wake);
      while todo != {}
        invariant Valid() && View() == Driven(old(View()), drives)
        invariant Retried(old(View()), View(), wake) && Retrying(old(View()), View(), todo)
      {
        ghost var any :| any in todo;
        LeastExists(todo, any);
        var t :| t in todo && forall u | u in todo :: t <= u;
        if t in post.receipts && post.receipts[t].retryable && !post.receipts[t].inline {
          var w, storeOk := wake(post.receipts[t].did), answers(|store.journal|);
          ghost var drive := Acknowledge(t, w, storeOk);
          RetryNext(old(View()), View(), todo, t, wake, storeOk);
          DriveAcknowledges(View(), t, w, storeOk);
          DrivenOneMore(old(View()), drives, drive);
          ok := CompleteDelivery(t, true, w, storeOk);
          drives := drives + [drive];
          if t in post.receipts { return false, drives; }
        } else {
          RetrySkips(old(View()), View(), todo, t, wake);
        }
        todo := todo - {t};
      }
      RetryEnds(old(View()), View(), wake);
      ok := true;
    }

    method MemberOwesAttention() returns (owes: bool)
      requires stop.Some?
      ensures owes == exists i | i in stop.value.members :: WakesOf(View(), i) != {}
    {
      var todo := stop.value.members;
      while todo != {}
        invariant todo <= stop.value.members && forall i | i in stop.value.members && i !in todo :: WakesOf(View(), i) == {}
      {
        var i :| i in todo;
        if i in post.attention && post.attention[i] != {} { return true; }
        todo := todo - {i};
      }
      return false;
    }

    /** Nothing is left to wait for: the stop's completion is journaled, unless the store refuses. */
    method FinishStop(storeOk: bool) returns (completed: bool, ghost drives: seq<Drive>)
      requires Valid() && StopOutcomes.Done(View()) && forall i | i in stop.value.members :: i in store.durable && !store.durable[i].open
      modifies this
      ensures View() == Driven(old(View()), drives)
      ensures Valid()
      ensures completed == storeOk && if completed then Completes(old(View()), View()) else View() == old(View())
    {
      hide Inv, After, Append, ApplyBatch, WakesOf;
      CompletionSteps(View(), storeOk);
      InvKnows(View());
      StopOutcomes.CompletionIs(View(), true, storeOk);
      drives := [Driving.Complete(storeOk)];
      DrivenOneMore(View(), [], drives[0]);
      assert [] + drives == drives;
      completed := AppendBatch([StopCompleted(stop.value.target, stop.value.seqNo)], storeOk);
      if completed { stop := None; }
    }

    /** Every generation has ended: what is due is acknowledged, and the stop completes once nothing is left to wait for. */
    method DrainStop(evidenceClean: bool, wake: DeliveryId -> nat, answers: nat -> bool) returns (completed: bool, ghost drives: seq<Drive>)
      requires Valid() && AllEnded(stop) && NoneLost(View())
      modifies this
      ensures View() == Driven(old(View()), drives)
      ensures Valid()
      ensures Drove(old(View()), View(), completed, evidenceClean, wake, answers)
      ensures runs == old(runs) && (completed <==> stop.None?)
    {
      hide Inv, After, WakesOf, Retried, NoneLost, Driven, JournalInv, StopShape, Accounted, ActiveExact;
      completed := false;
      ghost var more: seq<Drive>;
      var ok;
      InvKnows(View());
      MembersAtRest(View());
      ok, drives := RetryAcknowledgements(wake, answers);
      RetriedKeeps(old(View()), View(), wake);
      var owes := MemberOwesAttention();
      if ok && stop.value.receipts == {} && evidenceClean && !owes {
        completed, more := FinishStop(answers(|store.journal|));
        DrivenOn(old(View()), drives, more);
        drives := drives + more;
      }
    }

    /** Drives a pending stop as far as it goes: recovery, lost runs, acknowledgements, completion. The store answers each
        append anew, as `answers` says for the journal it finds; the first refusal ends the call, and so does a run that ended. */
    method Reconcile(evidenceClean: bool, now: nat, wake: DeliveryId -> nat, answers: nat -> bool) returns (completed: bool, ghost drives: seq<Drive>)
      requires Valid()
      modifies this
      ensures View() == Driven(old(View()), drives)
      ensures Valid()
      ensures Reconciled(old(View()), View(), completed, evidenceClean, now, wake, answers)
      ensures completed <==> old(stop).Some? && stop.None?
    {
      hide Inv, After, Append, ApplyBatch, WakesOf, Retried, Recovered, FirstRecoverable, Reconciled, RunsLost, NoneLost, LossBlocked, LostRun, Driven, Drove;
      completed := false;
      ghost var more: seq<Drive>;
      var tried;
      tried, drives := RecoverOne(now, answers(|store.journal|));
      if tried.Some? {
        AfterRecovery(old(View()), View(), tried.value, evidenceClean, now, wake, answers);
        return;
      }
      var ok, ended;
      ok, ended, more := LoseRuns(now, answers);
      DrivenOn(old(View()), drives, more);
      drives := drives + more;
      if !ok || ended {
        AfterLoss(old(View()), View(), evidenceClean, now, wake, answers);
        return;
      }
      NoLosses(old(View()), View());
      if stop.None? || stop.value.active != {} || stop.value.settlements != {} || !RecoveryReady(stop.value) {
        AfterIdle(old(View()), View(), evidenceClean, now, wake, answers);
        return;
      }
      ghost var settled := View();
      completed, more := DrainStop(evidenceClean, wake, answers);
      DrivenOn(old(View()), drives, more);
      drives := drives + more;
      AfterDrive(old(View()), settled, View(), completed, evidenceClean, now, wake, answers);
    }

    // ---- Reclamation ----

    /** Fences every entry of the claim under its token. */
    method MarkEntries(entries: set<Id>, token: Token)
      modifies this`guards
      ensures guards == old(guards).(reclaiming := map i | i in old(guards.reclaiming).Keys + entries :: if i in entries then token else old(guards.reclaiming)[i])
    {
      var marks, todo := guards.reclaiming, entries;
      while todo != {}
        invariant todo <= entries && marks == map i | i in guards.reclaiming.Keys + (entries - todo) :: if i in entries - todo then token else guards.reclaiming[i]
      {
        var i :| i in todo;
        todo := todo - {i};
        marks := marks[i := token];
      }
      guards := guards.(reclaiming := marks);
    }

    /** Makes room for new runtimes: nothing when they fit, an error only when all claimable subtrees together fall short. */
    method ClaimRuntimeReclamation(required: nat) returns (g: Grant)
      requires Valid()
      modifies this
      ensures Valid() && View() == if g.Granted? then ClaimReclamation(old(View()), required, g.roots) else old(View())
      ensures g.Granted? ==> |Unsettled(View())| + required <= limits.retained
      ensures g.Short? ==> |EntriesOver(View(), Roots(View()))| < Needed(View(), required)
      ensures g.Unneeded? ==> required == 0 || |Unsettled(View())| + required <= limits.retained
    {
      hide Inv, Roots, EntriesOver, EntriesOf, Unsettled, Selection, Under, ShapeOf;
      if required == 0 { return Unneeded; }
      if closing { return Refused; }
      Wellfounded();
      g := SelectReclamation(View(), required);
      if g.Granted? {
        ClaimKeepsValid(View(), required, g.roots);
        ArmedClaimFits(View(), required, g.roots);
        ArmFacts(View(), g.roots);
        var entries, token := EntriesOver(View(), g.roots), nextToken + 1;
        nextToken := token;
        var runtimes := map i | i in entries :: runs.live[i].runtime;
        MarkEntries(entries, token);
        guards := guards.(reclamations := guards.reclamations[token := Reclamation(g.roots, runtimes)]);
      }
    }

    lemma KnownTarget(actor: Option<Lease>, target: Id)
      requires Valid() && Authorized(View(), actor, target)
      ensures target in store.durable && target != NO_ID
    {
      hide Inv;
      Wellfounded();
    }
  }

  /** A stop is refused, or lands whole. */
  lemma StopCases(s: State, actor: Option<Lease>, target: Id, allowClosing: bool, storeOk: bool)
    ensures var n, members, next := Stopping.StopSubtree(s, actor, target, allowClosing, storeOk), Subtree(ShapeOf(s.store.durable), target),
                                    Append(s, [StopRequested(target)], storeOk);
            if s.stop.Some? || (s.closing && !allowClosing) || !Authorized(s, actor, target) || AttentionBlocks(s, members) || next.None? then n == s
            else n == next.value.(stop := Some(Snapshot(s, |s.store.journal| + 1, target, members)),
                                  post := s.post.(claims := s.post.claims - ClaimsIn(s.post.claims, s.post.parcels, members),
                                                  waiters := OweAll(s.post.waiters, WaitersIn(s.post.claims, s.post.parcels, members))))
  {
    hide Under, ClaimsIn, WaitersIn, OweAll, Subtree, AttentionBlocks, Authorized, Append, Snapshot;
  }

  lemma SnapshotOfTables(s: State, a: State, seqNo: nat, target: Id, members: set<Id>)
    requires a.runs == s.runs && a.tables == s.tables && a.post == s.post
    ensures Snapshot(a, seqNo, target, members) == Snapshot(s, seqNo, target, members)
  {
    hide ActiveIn, StartsIn, WorkIn, ReceiptsIn, QuietsIn, SteeringIn, ModelsIn, SettlementsIn, WatchesIn;
  }

  lemma StopKeepsValid(s: State, actor: Option<Lease>, target: Id, allowClosing: bool, storeOk: bool)
    requires Inv(s)
    ensures Inv(Stopping.StopSubtree(s, actor, target, allowClosing, storeOk))
  {
    hide Inv, Stopping.StopSubtree, NextStart, NextFinish, NextClaim, NextDeliver, NextFence, RecoverStopped, CompleteStop, Restart, LoseRuntime, ForgetLost,
         BeginClosing, CloseResumability, CloseUnrestorable, OpenAttention, ForgetAttention;
    StepKeepsInv(s, Stops(DoStopSubtree(actor, target, allowClosing, storeOk)));
  }

  lemma CommitKeepsValid(s: State, t: Token, cancelled: bool, pending: set<nat>, storeOk: bool)
    requires Inv(s)
    ensures Inv(Starting.CommitStart(s, t, cancelled, pending, storeOk))
  {
    hide Inv, Starting.CommitStart, NextFinish, NextClaim, NextDeliver, NextStop, NextFence, ReserveCreate, ReserveStart, ReserveAttention,
         ReserveOwedAttention, RegisterWaiter, ReleaseReservation, AttachRuntime, AttachIdleRuntime, BeginStartInput, CompleteStartInput, FailCommitted;
    StepKeepsInv(s, Starts(DoCommitStart(t, cancelled, pending, storeOk)));
  }

  lemma ModelKeepsValid(s: State, t: Token, history: seq<SteerProjection.Turn>)
    requires Inv(s)
    ensures Inv(Claims.CompleteModel(s, t, history))
  {
    hide Inv, Claims.CompleteModel, NextStart, NextFinish, NextDeliver, NextStop, NextFence, BeginSteer, CompleteSteer, AbortSteer, BeginModel, AbortModel,
         BeginWork, CommitWork, AbortWork, FinishWork, BeginQuiet, CompleteQuiet, BeginEnqueue, CompleteEnqueue, AbortEnqueue, AcquireWatch, CompleteWatch;
    StepKeepsInv(s, ClaimsWork(DoCompleteModel(t, history)));
  }

  lemma AdmittedIsBound(s: State, l: Lease)
    ensures Admitted(s, l) ==> l.id in s.runs.live && s.runs.live[l.id].binding.Some?
  {
    hide Reclaimed, Fenced;
  }

  lemma FinishKeepsValid(s: State, l: Lease, finish: Finish, now: nat, storeOk: bool)
    requires Inv(s)
    ensures Inv(Finishing.FinishGeneration(s, l, finish, false, now, storeOk))
  {
    hide Inv, Finishing.FinishGeneration, NextStart, NextClaim, NextDeliver, NextStop, NextFence, BeginFinalization, CompleteSettlement, FinishNoAction,
         PrepareNoAction, RequireRecovery, ReportQuiesced, AdmitReportWork, RecordNoAction, RecordTerminalSeen;
    StepKeepsInv(s, Finishes(DoFinishGeneration(l, finish, now, storeOk)));
  }

  /** What a release leaves, part by part. */
  lemma ReleaseIs(s: State, l: Lease)
    ensures var n := Finishing.ReleaseGeneration(s, l);
            if l.id !in s.runs.live || s.runs.live[l.id].binding.None? || s.runs.live[l.id].binding.value.lease != l || l.id !in s.store.durable then n == s
            else
              var drive, v := s.store.durable[l.id].trigger == AttentionTrigger, s.runs.live[l.id];
              n == s.(stop := UntrackGeneration(s, l),
                      tables := s.tables.(settlements := KeptSettlements(s, l.id), steering := KeptSteering(s, l.id), models := KeptModels(s, l.id)),
                      runs := s.runs.(inputs := s.runs.inputs - {v.binding.value.input}, live := s.runs.live[l.id := Unbound(v)],
                                      turns := if drive then s.runs.turns else Down(s.runs.turns),
                                      drives := if drive then Down(s.runs.drives) else s.runs.drives))
  {
    hide KeptSteering, KeptModels, KeptSettlements, UntrackGeneration, Unbound, Down, SteersReleased, EvidenceGrows, SameWaiters, OnlyGeneration;
  }

  lemma SettledAre(s: State, l: Lease)
    ensures UntrackGeneration(s, l) == if s.stop.None? then None else
              Some(s.stop.value.(settlements := s.stop.value.settlements - (set t | t in s.tables.settlements && s.tables.settlements[t].lease == l),
                                 active := s.stop.value.active - {l}))
    ensures KeptSettlements(s, l.id) == map t | t in s.tables.settlements && s.tables.settlements[t].lease.id != l.id :: s.tables.settlements[t]
  {
  }

  lemma CurrentHasParcel(s: State, p: Plan)
    requires PlanCurrent(s, p)
    ensures p.claim in s.post.parcels
  {
  }

  lemma RetriesIs(s: State, t: Token, p: Plan)
    requires t in s.post.receipts
    ensures var r := s.post.receipts[t];
            RetryMatches(s, t, p) == (r.retryable && r.claim == p.claim && r.delegate == p.delegate && r.owner == p.owner && p.waiter == 0
              && r.delegate in s.store.durable && s.store.durable[r.delegate].queue != []
              && s.store.durable[r.delegate].queue[0].did == p.did && s.store.durable[r.delegate].queue[0].packet == p.packet)
  {
  }

  lemma CarrierIsHeld(s: State, p: Plan)
    requires Inv(s) && Genuine(s, p)
    ensures p.carried != [] ==> p.heldClaim in s.post.parcels
  {
    InvCarries(s);
    hide Inv, KeysOk, MintsOk, SiblingsOk, HeldReceipts, Genuine;
    if p.carried != [] { CarrierHeld(s, p); }
  }

  lemma InvCarries(s: State)
    requires Inv(s)
    ensures CarryInv(s.post, s.runs.live, s.store.durable)
  {
    hide CoreInv, StopAlwaysWins, InHand, NoStoppedClaim, CarryInv;
  }

  lemma HeldParcelKnown(s: State, t: Token)
    requires Inv(s) && t in s.post.receipts && s.post.receipts[t].held != 0
    ensures s.post.receipts[t].held in s.post.parcels
  {
    InvCarries(s);
    hide Inv, KeysOk, MintsOk, SiblingsOk;
  }

  lemma BeginKeepsValid(s: State, p: Plan)
    requires Inv(s)
    ensures Inv(Delivering.BeginDelivery(s, p))
  {
    hide Inv, Delivering.BeginDelivery, NextStart, NextFinish, NextClaim, NextStop, NextFence, PostUpdate, PlanDelivery, Delivering.CompleteDelivery,
         LeaveForRetry, HoldClaim, DropClaim, WithdrawWaiter, DropStoppedWaiter, AnswerWaiter;
    StepKeepsInv(s, Delivers(DoBeginDelivery(p)));
  }

  lemma CompleteKeepsValid(s: State, t: Token, committed: bool, wake: nat, storeOk: bool)
    requires Inv(s)
    ensures Inv(Delivering.CompleteDelivery(s, t, committed, wake, storeOk))
  {
    hide Inv, Delivering.BeginDelivery, NextStart, NextFinish, NextClaim, NextStop, NextFence, PostUpdate, PlanDelivery, Delivering.CompleteDelivery,
         LeaveForRetry, HoldClaim, DropClaim, WithdrawWaiter, DropStoppedWaiter, AnswerWaiter;
    StepKeepsInv(s, Delivers(DoCompleteDelivery(t, committed, wake, storeOk)));
  }

  lemma HandoffKeepsValid(s: State, id: Id)
    requires Inv(s)
    ensures Inv(Fences.BeginHandoff(s, id))
  {
    hide Inv, Fences.BeginHandoff, NextStart, NextFinish, NextClaim, NextDeliver, NextStop, EndHandoff, BeginRestore, EndRestore, HoldRestore, ReleaseHold,
         ClaimReclamation, ClaimIdleRelease, CompleteReclamation, AbortReclamation;
    StepKeepsInv(s, FencesOff(DoBeginHandoff(id)));
  }

  /** A drive keeps the invariant: it is a step. */
  lemma DriveKeepsInv(s: State, d: Drive)
    requires Inv(s)
    ensures Inv(After(s, d))
  {
    hide Inv, After, Next;
    DriveIsStep(s, d);
    StepKeepsInv(s, StepOf(d));
  }

  lemma RecoverySteps(s: State, l: Lease, now: nat, storeOk: bool)
    requires Inv(s)
    ensures var n := RecoverStopped(s, l, now, storeOk); Inv(n) && After(s, Recover(l, now, storeOk)) == n
  {
    hide Inv, RecoverStopped, CompleteStop, LoseRuntime, ForgetLost, Delivering.CompleteDelivery;
    DriveKeepsInv(s, Recover(l, now, storeOk));
  }

  lemma LostSteps(s: State, l: Lease, now: nat, storeOk: bool)
    requires Inv(s)
    ensures var n := LoseRuntime(s, l, now, storeOk); Inv(n) && After(s, Lose(l, now, storeOk)) == n
  {
    hide Inv, RecoverStopped, CompleteStop, LoseRuntime, ForgetLost, Delivering.CompleteDelivery;
    DriveKeepsInv(s, Lose(l, now, storeOk));
  }

  lemma ForgetSteps(s: State, l: Lease)
    requires Inv(s)
    ensures var n := ForgetLost(s, l); Inv(n) && After(s, Forget(l)) == n
  {
    hide Inv, RecoverStopped, CompleteStop, LoseRuntime, ForgetLost, Delivering.CompleteDelivery;
    DriveKeepsInv(s, Forget(l));
  }

  lemma CompletionSteps(s: State, storeOk: bool)
    requires Inv(s)
    ensures var n := CompleteStop(s, true, storeOk); Inv(n) && After(s, Complete(storeOk)) == n
  {
    hide Inv, RecoverStopped, CompleteStop, LoseRuntime, ForgetLost, Delivering.CompleteDelivery;
    DriveKeepsInv(s, Complete(storeOk));
  }

  lemma DriveAcknowledges(s: State, t: Token, wake: nat, storeOk: bool)
    ensures After(s, Acknowledge(t, wake, storeOk)) == Delivering.CompleteDelivery(s, t, true, wake, storeOk)
  {
    hide RecoverStopped, CompleteStop, LoseRuntime, ForgetLost, Delivering.CompleteDelivery;
  }

  lemma ClaimKeepsValid(s: State, required: nat, roots: set<Id>)
    requires Inv(s)
    ensures Inv(ClaimReclamation(s, required, roots))
  {
    hide Inv, Fences.BeginHandoff, NextStart, NextFinish, NextClaim, NextDeliver, NextStop, EndHandoff, BeginRestore, EndRestore, HoldRestore, ReleaseHold,
         ClaimReclamation, ClaimIdleRelease, CompleteReclamation, AbortReclamation;
    StepKeepsInv(s, FencesOff(DoClaimReclamation(required, roots)));
  }

  lemma ArmFacts(s: State, roots: set<Id>)
    ensures forall i | i in EntriesOver(s, roots) :: i in s.runs.live
    ensures RuntimesAt(s, EntriesOver(s, roots)) == map i | i in EntriesOver(s, roots) :: s.runs.live[i].runtime
  {
  }
}
