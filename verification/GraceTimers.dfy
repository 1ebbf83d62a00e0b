/** One grace timer per delegate: arming, installing, firing, retiring and closing, in any interleaving. */
module GraceTimers {
  import opened Types

  /** Where a created timer is. A handed-back one is the caller's to stop. */
  datatype Place = PendingInstall | Installed | HandedBack | Retired

  /** `fired`: its callback has begun; `done`: its callback has retired whatever entry was its own. */
  datatype Timer = Timer(delegate: Id, generation: nat, place: Place, fired: bool, done: bool)

  /** `timers` by arm, and each delegate's installed arm. */
  datatype Timers = Timers(timers: map<nat, Timer>, installed: map<Id, nat>, lastArm: nat, closing: bool)

  const EMPTY := Timers(map[], map[], 0, false)

  // ---- Steps ----

  /** The arm mints its identity, then creates its timer. */
  function Arm(s: Timers, delegate: Id, generation: nat): Timers {
    s.(lastArm := s.lastArm + 1, timers := s.timers[s.lastArm + 1 := Timer(delegate, generation, PendingInstall, false, false)])
  }

  predicate NewerInstalled(s: Timers, arm: nat)
    requires arm in s.timers
  {
    var t := s.timers[arm];
    && t.delegate in s.installed && s.installed[t.delegate] in s.timers
    && var other := s.installed[t.delegate];
    && (s.timers[other].generation > t.generation || (s.timers[other].generation == t.generation && other > arm))
  }

  function Moved(s: Timers, arm: nat, place: Place): map<nat, Timer> {
    if arm in s.timers then s.timers[arm := s.timers[arm].(place := place)] else s.timers
  }

  /** Installing swaps the delegate's outstanding timer, unless this one is spent, stale or late; the loser is handed back. */
  function Install(s: Timers, arm: nat): Timers {
    if arm !in s.timers || s.timers[arm].place != PendingInstall then s
    else if s.closing || s.timers[arm].fired || NewerInstalled(s, arm) then s.(timers := Moved(s, arm, HandedBack))
    else
      var d := s.timers[arm].delegate;
      var displaced := if d in s.installed then s.(timers := Moved(s, s.installed[d], HandedBack)) else s;
      displaced.(timers := Moved(displaced, arm, Installed), installed := s.installed[d := arm])
  }

  /** The callback marks its timer spent before anything else. */
  function Fire(s: Timers, arm: nat): Timers {
    if arm in s.timers then s.(timers := s.timers[arm := s.timers[arm].(fired := true)]) else s
  }

  /** Then it drops the entry that is still its own. */
  function Retire(s: Timers, arm: nat): Timers {
    if arm !in s.timers || !s.timers[arm].fired || s.timers[arm].done then s
    else
      var t := s.timers[arm];
      if t.delegate in s.installed && s.installed[t.delegate] == arm
      then s.(timers := s.timers[arm := t.(place := Retired, done := true)], installed := s.installed - {t.delegate})
      else s.(timers := s.timers[arm := t.(done := true)])
  }

  /** Closing sweeps every installed timer into the caller's hands, once. */
  function Close(s: Timers): Timers {
    if s.closing then s
    else
      Timers(map a | a in s.timers :: if s.timers[a].place == Installed then s.timers[a].(place := HandedBack) else s.timers[a],
             map[], s.lastArm, true)
  }

  datatype Step = DoArm(delegate: Id, generation: nat) | DoInstall(arm: nat) | DoFire(arm: nat) | DoRetire(arm: nat) | DoClose

  function Next(s: Timers, step: Step): Timers {
    match step
    case DoArm(d, g) => Arm(s, d, g)
    case DoInstall(a) => Install(s, a)
    case DoFire(a) => Fire(s, a)
    case DoRetire(a) => Retire(s, a)
    case DoClose => Close(s)
  }

  function Run(s: Timers, steps: seq<Step>): Timers {
    if steps == [] then s else Next(Run(s, steps[..|steps| - 1]), steps[|steps| - 1])
  }

  // ---- What every interleaving keeps ----

  /** The table names exactly the installed timers, none of them spent and retired, none once closing;
      and a timer out of every hand has fired. */
  ghost predicate TimersOk(s: Timers) {
    && (forall a | a in s.timers :: 1 <= a <= s.lastArm)
    && (forall d | d in s.installed :: s.installed[d] in s.timers && s.timers[s.installed[d]].delegate == d && s.timers[s.installed[d]].place == Installed)
    && (forall a | a in s.timers && s.timers[a].place == Installed ::
          s.timers[a].delegate in s.installed && s.installed[s.timers[a].delegate] == a && !s.timers[a].done)
    && (forall a | a in s.timers && (s.timers[a].place == Retired || s.timers[a].done) :: s.timers[a].fired)
    && (s.closing ==> s.installed == map[])
  }

  /** This step put the timer into the caller's hands. */
  predicate NewlyBack(s: Timers, n: Timers, a: nat) {
    a in n.timers && n.timers[a].place == HandedBack && !(a in s.timers && s.timers[a].place == HandedBack)
  }

  /** Of a pending arm and the delegate's installed one the winner is installed and the loser handed back: the arm wins while the table is open,
      its callback has not begun and nothing newer is installed. No other timer and no other delegate's place changes. */
  lemma InstallIsExact(s: Timers, arm: nat)
    requires TimersOk(s) && arm in s.timers && s.timers[arm].place == PendingInstall
    ensures var n, d := Install(s, arm), s.timers[arm].delegate;
            var wins := !s.closing && !s.timers[arm].fired && (d in s.installed ==>
                          var other := s.installed[d];
                          s.timers[other].generation < s.timers[arm].generation || (s.timers[other].generation == s.timers[arm].generation && other <= arm));
            && n.installed == (if wins then s.installed[d := arm] else s.installed)
            && n.timers.Keys == s.timers.Keys && n.timers[arm].place == (if wins then Installed else HandedBack)
            && (forall a | a in s.timers && a != arm :: n.timers[a].place == if wins && d in s.installed && s.installed[d] == a then HandedBack else s.timers[a].place)
            && (forall a | a in s.timers :: n.timers[a] == s.timers[a].(place := n.timers[a].place))
  {
  }

  lemma InstallKeeps(s: Timers, arm: nat)
    requires TimersOk(s)
    ensures TimersOk(Install(s, arm))
  {
  }

  lemma StepKeeps(s: Timers, step: Step)
    requires TimersOk(s)
    ensures TimersOk(Next(s, step))
  {
    match step
    case DoInstall(a) =>
      hide Install;
      InstallKeeps(s, a);
    case _ => hide Install;
  }

  /** While a delegate's place is occupied it only ever passes to a newer generation, or a newer arm of the same one. */
  ghost predicate OnlyNewer(s: Timers, n: Timers) {
    forall d | d in s.installed && d in n.installed && s.installed[d] in s.timers && n.installed[d] in n.timers ::
      var a, b := s.installed[d], n.installed[d];
      s.timers[a].generation < n.timers[b].generation || (s.timers[a].generation == n.timers[b].generation && a <= b)
  }

  lemma StepOnlyNewer(s: Timers, step: Step)
    requires TimersOk(s)
    ensures OnlyNewer(s, Next(s, step))
  {
  }

  /** In every run: one installed timer per delegate at most, none spent stays installed after its callback,
      none is installed once closing, and every created timer is pending, installed, handed back, or fired. */
  lemma {:induction false} TimersAreAccountedFor(steps: seq<Step>)
    ensures var s := Run(EMPTY, steps);
            && TimersOk(s)
            && (forall a, b | a in s.timers && b in s.timers && s.timers[a].place == Installed && s.timers[b].place == Installed
                              && s.timers[a].delegate == s.timers[b].delegate :: a == b)
            && (forall a | a in s.timers :: s.timers[a].place in {PendingInstall, Installed, HandedBack} || s.timers[a].fired)
  {
    hide Next;
    if steps != [] {
      TimersAreAccountedFor(steps[..|steps| - 1]);
      StepKeeps(Run(EMPTY, steps[..|steps| - 1]), steps[|steps| - 1]);
    }
  }

  // ---- In place ----

  class TimerTable {
    var timers: map<nat, Timer>
    var installed: map<Id, nat>
    var lastArm: nat
    var closing: bool

    function View(): Timers
      reads this
    {
      Timers(timers, installed, lastArm, closing)
    }

    constructor ()
      ensures View() == EMPTY
    {
      timers, installed, lastArm, closing := map[], map[], 0, false;
    }

    method NextArm(delegate: Id, generation: nat) returns (arm: nat)
      modifies this
      ensures View() == Arm(old(View()), delegate, generation) && arm == lastArm
    {
      lastArm := lastArm + 1;
      arm := lastArm;
      timers := timers[arm := Timer(delegate, generation, PendingInstall, false, false)];
    }

    /** Returns the arm of the timer the caller must stop. */
    method Swap(arm: nat) returns (stop: Option<nat>)
      requires TimersOk(View()) && arm in timers && timers[arm].place == PendingInstall
      modifies this
      ensures View() == Install(old(View()), arm) && TimersOk(View())
      ensures forall a: nat :: stop == Some(a) <==> NewlyBack(old(View()), View(), a)
    {
      InstallKeeps(View(), arm);
      var t := timers[arm];
      if closing || t.fired {
        timers := timers[arm := t.(place := HandedBack)];
        return Some(arm);
      }
      if t.delegate in installed {
        var other := installed[t.delegate];
        if timers[other].generation > t.generation || (timers[other].generation == t.generation && other > arm) {
          timers := timers[arm := t.(place := HandedBack)];
          return Some(arm);
        }
        timers := timers[other := timers[other].(place := HandedBack)];
        stop := Some(other);
      } else {
        stop := None;
      }
      timers := timers[arm := timers[arm].(place := Installed)];
      installed := installed[t.delegate := arm];
    }

    method RetireFired(arm: nat)
      requires TimersOk(View()) && arm in timers && timers[arm].fired && !timers[arm].done
      modifies this
      ensures View() == Retire(old(View()), arm) && TimersOk(View())
    {
      StepKeeps(View(), DoRetire(arm));
      var t := timers[arm];
      if t.delegate in installed && installed[t.delegate] == arm {
        installed := installed - {t.delegate};
        timers := timers[arm := t.(place := Retired, done := true)];
      } else {
        timers := timers[arm := t.(done := true)];
      }
    }

    /** Empties the table; the caller stops what it held. */
    method TakeAll() returns (taken: set<nat>)
      requires TimersOk(View())
      modifies this
      ensures View() == Close(old(View())) && TimersOk(View())
      ensures !old(closing) ==> taken == set d | d in old(installed) :: old(installed)[d]
    {
      StepKeeps(View(), DoClose);
      taken := {};
      if closing { return; }
      taken := set d | d in installed :: installed[d];
      timers := map a | a in timers :: if timers[a].place == Installed then timers[a].(place := HandedBack) else timers[a];
      installed, closing := map[], true;
    }
  }
}
