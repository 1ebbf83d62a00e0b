/** The controller as a state machine: every critical section is one step, and a run is any sequence of them. */
module Machine {
  import opened Types
  import opened State
  import opened Finishing
  import opened Starting
  import opened Claims
  import opened Delivering
  import opened Stopping
  import opened Fences

  datatype Step =
    | Starts(start: StartStep)
    | Finishes(finish: FinishStep)
    | ClaimsWork(claim: ClaimStep)
    | Delivers(deliver: DeliverStep)
    | Stops(stop: StopStep)
    | FencesOff(fence: FenceStep)

  ghost function Next(s: State, step: Step): State {
    match step
    case Starts(x) => NextStart(s, x)
    case Finishes(x) => NextFinish(s, x)
    case ClaimsWork(x) => NextClaim(s, x)
    case Delivers(x) => NextDeliver(s, x)
    case Stops(x) => NextStop(s, x)
    case FencesOff(x) => NextFence(s, x)
  }

  predicate Restarts(step: Step) {
    step.Stops? && step.stop.DoRestart?
  }

  predicate NoRestart(steps: seq<Step>) {
    forall k | 0 <= k < |steps| :: !Restarts(steps[k])
  }

  ghost function Run(s: State, steps: seq<Step>): State {
    hide Next; if steps == [] then s else Next(Run(s, steps[..|steps| - 1]), steps[|steps| - 1])
  }

  /** A tree with nothing in it. */
  function Init(limits: Limits): State {
    State(Store([], map[], map[]), Runs(map[], map[], map[], 0, 0, {}), Tables(map[], map[], map[], map[], map[], map[], map[]),
      Post(map[], map[], map[], map[], map[]), Guards({}, map[], map[], map[], map[]), None, false, 0, limits)
  }
}
