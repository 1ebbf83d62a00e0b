/** What each claim of a running generation leaves behind: who may take it, what it holds, and what giving it back touches. */
module ClaimOutcomes {
  import opened Types
  import opened State
  import opened Claims
  import SteerProjection

  /** No settlement claim of the run. */
  predicate NotSettling(s: State, l: Lease) {
    forall t | t in s.tables.settlements :: s.tables.settlements[t].lease != l
  }

  // ---- Steering ----

  /** No steer, admitted or being written, carries the entry. */
  predicate Unseen(s: State, entry: nat) {
    entry != 0 && (forall t | t in s.tables.steering :: s.tables.steering[t].entry != entry) && forall i, st | i in s.runs.live && st in s.runs.live[i].steers :: st.entry != entry
  }

  lemma EntriesUnseen(s: State, entry: nat)
    ensures FreshEntry(s, entry) <==> Unseen(s, entry)
  {
    if FreshEntry(s, entry) {
      forall i, st | i in s.runs.live && st in s.runs.live[i].steers ensures st.entry != entry {
        var k :| 0 <= k < |s.runs.live[i].steers| && s.runs.live[i].steers[k] == st;
      }
    }
  }

  /** A steer is taken from whoever controls the delegate, for its admitted, unsettled run with a runtime, under a fresh entry. */
  lemma SteerBegun(s: State, actor: Option<Lease>, id: Id, entry: nat)
    ensures var n := BeginSteer(s, actor, id, entry);
            if Authorized(s, actor, id) && LeaseAt(s.runs.live, id).Some? && s.runs.live[id].binding.value.runtime != 0
               && Admitted(s, LeaseAt(s.runs.live, id).value) && NotSettling(s, LeaseAt(s.runs.live, id).value) && Unseen(s, entry)
            then n.nextToken == s.nextToken + 1
                 && n.tables.steering == s.tables.steering[n.nextToken := SteerClaim(LeaseAt(s.runs.live, id).value, s.runs.live[id].binding.value.runtime, entry)]
            else n == s
  {
    hide Admitted, FreshEntry, Unseen, Authorized;
    EntriesUnseen(s, entry);
  }

  /** The claim leaves its table and the stop; nothing else moves. */
  predicate SteerGone(s: State, n: State, t: Token) {
    && n.tables.steering == s.tables.steering - {t}
    && (if s.stop.None? then n.stop.None? else n.stop == Some(s.stop.value.(steering := s.stop.value.steering - {t})))
  }

  lemma SteerAborted(s: State, t: Token)
    ensures var n := AbortSteer(s, t); if t in s.tables.steering then SteerGone(s, n, t) else n == s
  {
  }

  lemma SteerCompletes(s: State, t: Token)
    ensures var n := CompleteSteer(s, t); if t in s.tables.steering then SteerGone(s, n, t) else n == s
    ensures var n := CompleteSteer(s, t);
            n.runs.live.Keys == s.runs.live.Keys && forall i | i in s.runs.live :: n.runs.live[i] == s.runs.live[i].(steers := n.runs.live[i].steers)
  {
    hide Admitted, SameLeases, SameWaiters, EvidenceGrows;
  }

  // ---- Model requests ----

  /** One request at a time, of the admitted, unsettled run with a runtime. */
  lemma RequestBegun(s: State, l: Lease)
    ensures var n := BeginModel(s, l);
            if Admitted(s, l) && s.runs.live[l.id].binding.value.runtime != 0 && NotSettling(s, l)
               && forall t | t in s.tables.models :: s.tables.models[t].lease != l
            then n.nextToken == s.nextToken + 1
                 && n.tables.models == s.tables.models[n.nextToken := ModelClaim(l, s.runs.live[l.id].binding.value.runtime, Entries(s.runs.live[l.id].steers))]
            else n == s
  {
    hide Fenced, Reclaimed;
  }

  predicate RequestGone(s: State, n: State, t: Token) {
    && n.tables.models == s.tables.models - {t}
    && (if s.stop.None? then n.stop.None? else n.stop == Some(s.stop.value.(models := s.stop.value.models - {t})))
  }

  lemma RequestAborted(s: State, t: Token)
    ensures var n := AbortModel(s, t); if t in s.tables.models then RequestGone(s, n, t) && n.runs == s.runs else n == s
  {
  }

  /** A stale request, of a run no longer admitted or another runtime's, binds nothing; a current one changes only steers and the report it owes. */
  lemma RequestCompletes(s: State, t: Token, history: seq<SteerProjection.Turn>)
    ensures var n := CompleteModel(s, t, history);
            if t !in s.tables.models then n == s
            else
              var c := s.tables.models[t];
              && RequestGone(s, n, t)
              && if !Admitted(s, c.lease) || s.runs.live[c.lease.id].binding.value.runtime != c.runtime then n.runs == s.runs
                 else
                   && n.runs.live.Keys == s.runs.live.Keys && (forall i | i in s.runs.live && i != c.lease.id :: n.runs.live[i] == s.runs.live[i])
                   && var v, w := s.runs.live[c.lease.id], n.runs.live[c.lease.id];
                   w.binding.Some? && w == v.(steers := Unbind(v.steers, BoundBy(s, c, history)),
                                              binding := Some(v.binding.value.(evidence := v.binding.value.evidence.(reportRequired := w.binding.value.evidence.reportRequired))))
  {
    hide Fenced, Reclaimed, BoundBy, Unbind, SameLeases, SameWaiters, EvidenceGrows;
  }

  /** What a request does not bind keeps its order. */
  lemma {:induction false} UnboundInOrder(a: seq<Steer>, b: seq<Steer>, bound: set<nat>)
    ensures Unbind(a + b, bound) == Unbind(a, bound) + Unbind(b, bound)
  {
    if b == [] {
      assert a + b == a;
    } else {
      UnboundInOrder(a, b[..|b| - 1], bound);
      assert (a + b)[..|a + b| - 1] == a + b[..|b| - 1];
    }
  }

  lemma UnboundOne(st: Steer, bound: set<nat>)
    ensures Unbind([st], bound) == if st.entry in bound then [] else [st]
  {
    assert [st][..0] == [];
  }

  // ---- Shell work ----

  lemma WorkBegun(s: State, l: Lease)
    ensures var n := BeginWork(s, l);
            if Admitted(s, l) then n.nextToken == s.nextToken + 1 && n.tables.work == s.tables.work[n.nextToken := Work(l, false)] else n == s
  {
    hide Admitted;
  }

  /** Uncommitted work is committed once, and a stop over its owner takes it up; committing touches no other job. */
  lemma WorkCommitted(s: State, t: Token)
    ensures var n := CommitWork(s, t);
            if t in s.tables.work && !s.tables.work[t].committed
            then && n.tables.work == s.tables.work[t := Work(s.tables.work[t].owner, true)]
                 && (s.stop.Some? ==>
                       && n.stop.Some?
                       && n.stop.value.work == if s.tables.work[t].owner.id in s.stop.value.members then s.stop.value.work + {t} else s.stop.value.work)
            else n == s
  {
  }

  predicate WorkGone(s: State, n: State, t: Token) {
    && n.tables.work == s.tables.work - {t}
    && (if s.stop.None? then n.stop.None? else n.stop == Some(s.stop.value.(work := s.stop.value.work - {t})))
  }

  /** Only uncommitted work is aborted, and only committed work finishes. */
  lemma WorkEnds(s: State, t: Token)
    ensures if t in s.tables.work && !s.tables.work[t].committed then WorkGone(s, AbortWork(s, t), t) else AbortWork(s, t) == s
    ensures if t in s.tables.work && s.tables.work[t].committed then WorkGone(s, FinishWork(s, t), t) else FinishWork(s, t) == s
  {
  }

  // ---- Quiet notices ----

  /** One notice at a time, of the admitted, unsettled run; the run names it until it completes. */
  lemma QuietBegun(s: State, l: Lease)
    ensures var n := BeginQuiet(s, l);
            if Admitted(s, l) && NotSettling(s, l) && s.runs.live[l.id].quiet == 0
            then n.nextToken == s.nextToken + 1 && n.tables.quiets == s.tables.quiets[n.nextToken := l]
                 && n.runs.live == s.runs.live[l.id := s.runs.live[l.id].(quiet := n.nextToken)]
            else n == s
  {
    hide Fenced, Reclaimed, SameSteers, SameLeases, SameWaiters, EvidenceGrows;
  }

  lemma QuietCompleted(s: State, t: Token)
    ensures var n := CompleteQuiet(s, t);
            if t !in s.tables.quiets then n == s
            else
              var id := s.tables.quiets[t].id;
              && n.tables.quiets == s.tables.quiets - {t}
              && (if s.stop.None? then n.stop.None? else n.stop == Some(s.stop.value.(quiets := s.stop.value.quiets - {t})))
              && n.runs.live.Keys == s.runs.live.Keys
              && forall i | i in s.runs.live :: n.runs.live[i] == if i == id && s.runs.live[i].quiet == t then s.runs.live[i].(quiet := 0) else s.runs.live[i]
  {
    hide SameSteers, SameLeases, SameWaiters, EvidenceGrows;
  }

  // ---- Watch receipts ----

  /** A watch names a source at its present generation, open unless terminal sources are allowed, and a receiver that exists. */
  predicate Watchable(s: State, w: Watch, terminalSource: bool) {
    && !s.closing
    && (w.source == NO_ID || (w.source in s.store.durable && s.store.durable[w.source].generation == w.generation
                              && (s.store.durable[w.source].open || terminalSource)))
    && (w.receiver == NO_ID || w.receiver in s.store.durable)
    && (s.stop.Some? ==> w.source !in s.stop.value.members && w.receiver !in s.stop.value.members)
  }

  lemma EnqueueBegun(s: State, w: Watch, terminalSource: bool)
    ensures var n := BeginEnqueue(s, w, terminalSource);
            if Watchable(s, w, terminalSource) then n.nextToken == s.nextToken + 1 && n.tables.enqueues == s.tables.enqueues[n.nextToken := w] else n == s
  {
  }

  /** An update is acquired once. */
  lemma WatchAcquired(s: State, w: Watch, terminalSource: bool)
    ensures var n := AcquireWatch(s, w, terminalSource);
            if Watchable(s, w, terminalSource)
               && forall t | t in s.tables.deliveries :: s.tables.deliveries[t].delivery != w.delivery || s.tables.deliveries[t].update != w.update
            then n.nextToken == s.nextToken + 1 && n.tables.deliveries == s.tables.deliveries[n.nextToken := w] else n == s
  {
  }

  /** The receipt that replaces a landed enqueue is for the same watch, and a stop that covers it tracks it. */
  lemma EnqueueCompleted(s: State, t: Token)
    ensures var n := CompleteEnqueue(s, t);
            if t !in s.tables.enqueues then n == s
            else
              var w := s.tables.enqueues[t];
              && n.nextToken == s.nextToken + 1 && n.tables.enqueues == s.tables.enqueues - {t} && n.tables.deliveries == s.tables.deliveries[n.nextToken := w]
              && if s.stop.None? then n.stop.None?
                 else
                   && n.stop.Some? && n.stop.value.enqueues == s.stop.value.enqueues - {t}
                   && n.stop.value.deliveries == if w.source in s.stop.value.members || w.receiver in s.stop.value.members
                                                 then s.stop.value.deliveries + {n.nextToken} else s.stop.value.deliveries
  {
  }

  lemma WatchEnds(s: State, t: Token)
    ensures if t in s.tables.enqueues
            then AbortEnqueue(s, t).tables.enqueues == s.tables.enqueues - {t}
                 && AbortEnqueue(s, t).stop == (if s.stop.None? then None else Some(s.stop.value.(enqueues := s.stop.value.enqueues - {t})))
            else AbortEnqueue(s, t) == s
    ensures if t in s.tables.deliveries
            then CompleteWatch(s, t).tables.deliveries == s.tables.deliveries - {t}
                 && CompleteWatch(s, t).stop == (if s.stop.None? then None else Some(s.stop.value.(deliveries := s.stop.value.deliveries - {t})))
            else CompleteWatch(s, t) == s
  {
  }
}
