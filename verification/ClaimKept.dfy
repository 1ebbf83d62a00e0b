/** Claims, shell work, notices and watch receipts: each such step keeps the core invariants. */
module ClaimKept {
  import SteerProjection
  import opened Types
  import opened Tree
  import opened State
  import opened Claims
  import opened Effects
  import opened Invariants

  // ---- Steering ----

  lemma BeginSteerTracks(s: State, actor: Option<Lease>, id: Id, entry: nat)
    requires StopShape(s.stop, s.store.durable) && SteeringExact(s.stop, s.tables.steering) && Minted(s.tables.steering.Keys, s.nextToken)
    ensures var n := BeginSteer(s, actor, id, entry);
            SteeringExact(n.stop, n.tables.steering) && Minted(n.tables.steering.Keys, n.nextToken)
  {
    hide Under, Fenced, ShapeOf, Authorized, FreshEntry, HasSettlement;
  }

  lemma SteerRemoved(stop: Option<StopState>, table: map<Token, SteerClaim>, t: Token)
    requires SteeringExact(stop, table)
    ensures SteeringExact(UntrackSteering(stop, t), table - {t})
  {
  }

  lemma CompleteSteerTracks(s: State, t: Token)
    requires SteeringExact(s.stop, s.tables.steering)
    ensures var n := CompleteSteer(s, t); SteeringExact(n.stop, n.tables.steering) && n.tables.steering.Keys <= s.tables.steering.Keys
  {
    hide Admitted, SteeringExact, UntrackSteering, AddSteer;
    SteerRemoved(s.stop, s.tables.steering, t);
  }

  lemma AbortSteerTracks(s: State, t: Token)
    requires SteeringExact(s.stop, s.tables.steering)
    ensures var n := AbortSteer(s, t); SteeringExact(n.stop, n.tables.steering) && n.tables.steering.Keys <= s.tables.steering.Keys
  {
    hide SteeringExact, UntrackSteering;
    SteerRemoved(s.stop, s.tables.steering, t);
  }

  // ---- Model requests ----

  lemma BeginModelTracks(s: State, l: Lease)
    requires StopShape(s.stop, s.store.durable) && ModelsExact(s.stop, s.tables.models) && Minted(s.tables.models.Keys, s.nextToken)
    ensures var n := BeginModel(s, l); ModelsExact(n.stop, n.tables.models) && Minted(n.tables.models.Keys, n.nextToken)
  {
    hide Under, Fenced, ShapeOf, HasSettlement;
  }

  lemma ModelRemoved(stop: Option<StopState>, table: map<Token, ModelClaim>, t: Token)
    requires ModelsExact(stop, table)
    ensures ModelsExact(UntrackModel(stop, t), table - {t})
  {
  }

  lemma ModelLeaves(s: State, t: Token, history: seq<SteerProjection.Turn>)
    requires t in s.tables.models
    ensures var n := CompleteModel(s, t, history); n.tables.models == s.tables.models - {t} && n.stop == UntrackModel(s.stop, t)
  {
    hide BoundBy, LateIds, Unbind, Admitted, UntrackModel, EvidenceGrows, SameWaiters, SameLeases, OnlyModels;
  }

  lemma CompleteModelTracks(s: State, t: Token, history: seq<SteerProjection.Turn>)
    requires ModelsExact(s.stop, s.tables.models)
    ensures var n := CompleteModel(s, t, history); ModelsExact(n.stop, n.tables.models) && n.tables.models.Keys <= s.tables.models.Keys
  {
    if t in s.tables.models {
      hide ModelsExact, UntrackModel, CompleteModel;
      ModelLeaves(s, t, history);
      ModelRemoved(s.stop, s.tables.models, t);
    } else {
      hide ModelsExact, Admitted, BoundBy;
    }
  }

  lemma AbortModelTracks(s: State, t: Token)
    requires ModelsExact(s.stop, s.tables.models)
    ensures var n := AbortModel(s, t); ModelsExact(n.stop, n.tables.models) && n.tables.models.Keys <= s.tables.models.Keys
  {
    hide ModelsExact, UntrackModel;
    ModelRemoved(s.stop, s.tables.models, t);
  }

  // ---- Shell work ----

  lemma BeginWorkTracks(s: State, l: Lease)
    requires StopShape(s.stop, s.store.durable) && WorkExact(s.stop, s.tables.work) && Minted(s.tables.work.Keys, s.nextToken)
    ensures var n := BeginWork(s, l); WorkExact(n.stop, n.tables.work) && Minted(n.tables.work.Keys, n.nextToken)
  {
    hide Under, Fenced, ShapeOf;
  }

  lemma CommitWorkTracks(s: State, t: Token)
    requires WorkExact(s.stop, s.tables.work)
    ensures var n := CommitWork(s, t); WorkExact(n.stop, n.tables.work) && n.tables.work.Keys <= s.tables.work.Keys
  {
  }

  lemma WorkRemoved(stop: Option<StopState>, table: map<Token, Work>, t: Token)
    requires WorkExact(stop, table)
    ensures WorkExact(UntrackWork(stop, t), table - {t})
  {
  }

  lemma AbortWorkTracks(s: State, t: Token)
    requires WorkExact(s.stop, s.tables.work)
    ensures var n := AbortWork(s, t); WorkExact(n.stop, n.tables.work) && n.tables.work.Keys <= s.tables.work.Keys
  {
    hide WorkExact, UntrackWork;
    WorkRemoved(s.stop, s.tables.work, t);
  }

  lemma FinishWorkTracks(s: State, t: Token)
    requires WorkExact(s.stop, s.tables.work)
    ensures var n := FinishWork(s, t); WorkExact(n.stop, n.tables.work) && n.tables.work.Keys <= s.tables.work.Keys
  {
    hide WorkExact, UntrackWork;
    WorkRemoved(s.stop, s.tables.work, t);
  }

  // ---- Quiet notices ----

  lemma BeginQuietTracks(s: State, l: Lease)
    requires StopShape(s.stop, s.store.durable) && QuietsExact(s.stop, s.tables.quiets) && Minted(s.tables.quiets.Keys, s.nextToken)
    ensures var n := BeginQuiet(s, l); QuietsExact(n.stop, n.tables.quiets) && Minted(n.tables.quiets.Keys, n.nextToken)
  {
    hide Under, Fenced, ShapeOf, HasSettlement;
  }

  lemma QuietRemoved(stop: Option<StopState>, table: map<Token, Lease>, t: Token)
    requires QuietsExact(stop, table)
    ensures QuietsExact(UntrackQuiet(stop, t), table - {t})
  {
  }

  lemma CompleteQuietTracks(s: State, t: Token)
    requires QuietsExact(s.stop, s.tables.quiets)
    ensures var n := CompleteQuiet(s, t); QuietsExact(n.stop, n.tables.quiets) && n.tables.quiets.Keys <= s.tables.quiets.Keys
  {
    hide QuietsExact, UntrackQuiet;
    QuietRemoved(s.stop, s.tables.quiets, t);
  }

  // ---- Watch receipts ----

  lemma BeginEnqueueTracks(s: State, w: Watch, terminalSource: bool)
    requires EnqueuesExact(s.stop, s.tables.enqueues) && Minted(s.tables.enqueues.Keys, s.nextToken)
    ensures var n := BeginEnqueue(s, w, terminalSource);
            EnqueuesExact(n.stop, n.tables.enqueues) && Minted(n.tables.enqueues.Keys, n.nextToken)
  {
    hide WatchValid;
  }

  lemma AcquireWatchTracks(s: State, w: Watch, terminalSource: bool)
    requires WatchesExact(s.stop, s.tables.deliveries) && Minted(s.tables.deliveries.Keys, s.nextToken)
    ensures var n := AcquireWatch(s, w, terminalSource);
            WatchesExact(n.stop, n.tables.deliveries) && Minted(n.tables.deliveries.Keys, n.nextToken)
  {
    hide WatchValid;
  }

  lemma EnqueueRemoved(stop: Option<StopState>, table: map<Token, Watch>, t: Token)
    requires EnqueuesExact(stop, table)
    ensures EnqueuesExact(UntrackEnqueue(stop, t), table - {t})
  {
  }

  lemma WatchRemoved(stop: Option<StopState>, table: map<Token, Watch>, t: Token)
    requires WatchesExact(stop, table)
    ensures WatchesExact(UntrackWatch(stop, t), table - {t})
  {
  }

  lemma AbortEnqueueTracks(s: State, t: Token)
    requires EnqueuesExact(s.stop, s.tables.enqueues) && WatchesExact(s.stop, s.tables.deliveries)
    ensures var n := AbortEnqueue(s, t);
            && EnqueuesExact(n.stop, n.tables.enqueues) && WatchesExact(n.stop, n.tables.deliveries)
            && n.tables.enqueues.Keys <= s.tables.enqueues.Keys
  {
    hide WatchesIn;
    EnqueueRemoved(s.stop, s.tables.enqueues, t);
  }

  lemma CompleteWatchTracks(s: State, t: Token)
    requires EnqueuesExact(s.stop, s.tables.enqueues) && WatchesExact(s.stop, s.tables.deliveries)
    ensures var n := CompleteWatch(s, t);
            && EnqueuesExact(n.stop, n.tables.enqueues) && WatchesExact(n.stop, n.tables.deliveries)
            && n.tables.deliveries.Keys <= s.tables.deliveries.Keys
  {
    hide WatchesIn;
    WatchRemoved(s.stop, s.tables.deliveries, t);
  }

  lemma WatchAdded(members: set<Id>, table: map<Token, Watch>, t: Token, w: Watch)
    requires t !in table
    ensures WatchesIn(table[t := w], members) == WatchesIn(table, members) + (if w.source in members || w.receiver in members then {t} else {})
  {
  }

  /** The new receipt is tracked exactly when the enqueue it replaces was. */
  lemma CompleteEnqueueTracks(s: State, t: Token)
    requires EnqueuesExact(s.stop, s.tables.enqueues) && Minted(s.tables.enqueues.Keys, s.nextToken)
    requires WatchesExact(s.stop, s.tables.deliveries) && Minted(s.tables.deliveries.Keys, s.nextToken)
    ensures var n := CompleteEnqueue(s, t);
            && EnqueuesExact(n.stop, n.tables.enqueues) && n.tables.enqueues.Keys <= s.tables.enqueues.Keys
            && WatchesExact(n.stop, n.tables.deliveries) && Minted(n.tables.deliveries.Keys, n.nextToken)
  {
    hide WatchesIn;
    EnqueueRemoved(s.stop, s.tables.enqueues, t);
    if t in s.tables.enqueues && s.stop.Some? {
      WatchAdded(s.stop.value.members, s.tables.deliveries, s.nextToken + 1, s.tables.enqueues[t]);
    }
  }

  // ---- Together ----

  /** A claim step moves no lease and writes nothing durable. */
  lemma ClaimFrame(s: State, x: ClaimStep)
    ensures var n := NextClaim(s, x);
            && n == s.(runs := s.runs.(live := n.runs.live),
                       tables := s.tables.(steering := n.tables.steering, models := n.tables.models, work := n.tables.work,
                                           quiets := n.tables.quiets, enqueues := n.tables.enqueues, deliveries := n.tables.deliveries),
                       stop := n.stop, nextToken := n.nextToken)
            && SameLeases(s.runs.live, n.runs.live) && s.nextToken <= n.nextToken
            && n.stop.Some? == s.stop.Some?
            && (s.stop.Some? ==> n.stop.value == s.stop.value.(steering := n.stop.value.steering, models := n.stop.value.models,
                                   work := n.stop.value.work, quiets := n.stop.value.quiets,
                                   enqueues := n.stop.value.enqueues, deliveries := n.stop.value.deliveries))
  {
    hide BeginSteer, CompleteSteer, AbortSteer, BeginModel, CompleteModel, AbortModel, BeginWork, CommitWork, AbortWork, FinishWork,
         BeginQuiet, CompleteQuiet, BeginEnqueue, CompleteEnqueue, AbortEnqueue, AcquireWatch, CompleteWatch;
  }

  lemma SteerTracks(s: State, x: ClaimStep)
    requires StopShape(s.stop, s.store.durable) && TrackInv(s) && TokInv(s)
    requires x.DoBeginSteer? || x.DoCompleteSteer? || x.DoAbortSteer?
    ensures TrackInv(NextClaim(s, x)) && TokInv(NextClaim(s, x))
  {
    hide BeginSteer, CompleteSteer, AbortSteer, BeginModel, CompleteModel, AbortModel, BeginWork, CommitWork, AbortWork, FinishWork,
         BeginQuiet, CompleteQuiet, BeginEnqueue, CompleteEnqueue, AbortEnqueue, AcquireWatch, CompleteWatch;
    hide ActiveIn, StartsIn, WorkIn, ReceiptsIn, QuietsIn, SteeringIn, ModelsIn, SettlementsIn, WatchesIn, StopShape;
    if s.stop.Some? { SameActive(s.runs.live, NextClaim(s, x).runs.live, s.stop.value.members); }
    match x
    case DoBeginSteer(a, id, e) => BeginSteerTracks(s, a, id, e);
    case DoCompleteSteer(t) => CompleteSteerTracks(s, t);
    case DoAbortSteer(t) => AbortSteerTracks(s, t);
  }

  lemma ModelTracks(s: State, x: ClaimStep)
    requires StopShape(s.stop, s.store.durable) && TrackInv(s) && TokInv(s)
    requires x.DoBeginModel? || x.DoCompleteModel? || x.DoAbortModel?
    ensures TrackInv(NextClaim(s, x)) && TokInv(NextClaim(s, x))
  {
    hide BeginSteer, CompleteSteer, AbortSteer, BeginModel, CompleteModel, AbortModel, BeginWork, CommitWork, AbortWork, FinishWork,
         BeginQuiet, CompleteQuiet, BeginEnqueue, CompleteEnqueue, AbortEnqueue, AcquireWatch, CompleteWatch;
    hide ActiveIn, StartsIn, WorkIn, ReceiptsIn, QuietsIn, SteeringIn, ModelsIn, SettlementsIn, WatchesIn, StopShape;
    if s.stop.Some? { SameActive(s.runs.live, NextClaim(s, x).runs.live, s.stop.value.members); }
    match x
    case DoBeginModel(l) => BeginModelTracks(s, l);
    case DoCompleteModel(t, p) => CompleteModelTracks(s, t, p);
    case DoAbortModel(t) => AbortModelTracks(s, t);
  }

  lemma WorkTracks(s: State, x: ClaimStep)
    requires StopShape(s.stop, s.store.durable) && TrackInv(s) && TokInv(s)
    requires x.DoBeginWork? || x.DoCommitWork? || x.DoAbortWork? || x.DoFinishWork?
    ensures TrackInv(NextClaim(s, x)) && TokInv(NextClaim(s, x))
  {
    hide BeginSteer, CompleteSteer, AbortSteer, BeginModel, CompleteModel, AbortModel, BeginWork, CommitWork, AbortWork, FinishWork,
         BeginQuiet, CompleteQuiet, BeginEnqueue, CompleteEnqueue, AbortEnqueue, AcquireWatch, CompleteWatch;
    hide ActiveIn, StartsIn, WorkIn, ReceiptsIn, QuietsIn, SteeringIn, ModelsIn, SettlementsIn, WatchesIn, StopShape;
    match x
    case DoBeginWork(l) => BeginWorkTracks(s, l);
    case DoCommitWork(t) => CommitWorkTracks(s, t);
    case DoAbortWork(t) => AbortWorkTracks(s, t);
    case DoFinishWork(t) => FinishWorkTracks(s, t);
  }

  lemma QuietTracks(s: State, x: ClaimStep)
    requires StopShape(s.stop, s.store.durable) && TrackInv(s) && TokInv(s)
    requires x.DoBeginQuiet? || x.DoCompleteQuiet?
    ensures TrackInv(NextClaim(s, x)) && TokInv(NextClaim(s, x))
  {
    hide BeginSteer, CompleteSteer, AbortSteer, BeginModel, CompleteModel, AbortModel, BeginWork, CommitWork, AbortWork, FinishWork,
         BeginQuiet, CompleteQuiet, BeginEnqueue, CompleteEnqueue, AbortEnqueue, AcquireWatch, CompleteWatch;
    hide ActiveIn, StartsIn, WorkIn, ReceiptsIn, QuietsIn, SteeringIn, ModelsIn, SettlementsIn, WatchesIn, StopShape;
    if s.stop.Some? { SameActive(s.runs.live, NextClaim(s, x).runs.live, s.stop.value.members); }
    match x
    case DoBeginQuiet(l) => BeginQuietTracks(s, l);
    case DoCompleteQuiet(t) => CompleteQuietTracks(s, t);
  }

  lemma WatchTracks(s: State, x: ClaimStep)
    requires StopShape(s.stop, s.store.durable) && TrackInv(s) && TokInv(s)
    requires x.DoBeginEnqueue? || x.DoCompleteEnqueue? || x.DoAbortEnqueue? || x.DoAcquireWatch? || x.DoCompleteWatch?
    ensures TrackInv(NextClaim(s, x)) && TokInv(NextClaim(s, x))
  {
    hide BeginSteer, CompleteSteer, AbortSteer, BeginModel, CompleteModel, AbortModel, BeginWork, CommitWork, AbortWork, FinishWork,
         BeginQuiet, CompleteQuiet, BeginEnqueue, CompleteEnqueue, AbortEnqueue, AcquireWatch, CompleteWatch;
    hide ActiveIn, StartsIn, WorkIn, ReceiptsIn, QuietsIn, SteeringIn, ModelsIn, SettlementsIn, WatchesIn, StopShape;
    match x
    case DoBeginEnqueue(w, k) => BeginEnqueueTracks(s, w, k);
    case DoCompleteEnqueue(t) => CompleteEnqueueTracks(s, t);
    case DoAbortEnqueue(t) => AbortEnqueueTracks(s, t);
    case DoAcquireWatch(w, k) => AcquireWatchTracks(s, w, k);
    case DoCompleteWatch(t) => CompleteWatchTracks(s, t);
  }

  lemma ClaimTracks(s: State, x: ClaimStep)
    requires StopShape(s.stop, s.store.durable) && TrackInv(s) && TokInv(s)
    ensures TrackInv(NextClaim(s, x)) && TokInv(NextClaim(s, x))
  {
    hide TrackInv, TokInv, StopShape, NextClaim;
    if x.DoBeginSteer? || x.DoCompleteSteer? || x.DoAbortSteer? { SteerTracks(s, x); }
    else if x.DoBeginModel? || x.DoCompleteModel? || x.DoAbortModel? { ModelTracks(s, x); }
    else if x.DoBeginWork? || x.DoCommitWork? || x.DoAbortWork? || x.DoFinishWork? { WorkTracks(s, x); }
    else if x.DoBeginQuiet? || x.DoCompleteQuiet? { QuietTracks(s, x); }
    else { WatchTracks(s, x); }
  }

  lemma ClaimKeepsCore(s: State, x: ClaimStep)
    requires CoreInv(s)
    ensures CoreInv(NextClaim(s, x))
  {
    hide TokInv, TrackInv, JournalInv, SameLeases, BindInv, ResInv, StopShape, SettleInv, CapInv, IndexExact, NextClaim;
    ClaimFrame(s, x);
    ClaimTracks(s, x);
    SameRunsReflexive(s.store.durable);
    SteadyStep(s, NextClaim(s, x));
  }
}
