/** The steps one reconciliation takes under its lock, and the runs of the machine they make up. */
module Driving {
  import opened Types
  import opened State
  import opened Finishing
  import opened Starting
  import opened Claims
  import opened Delivering
  import opened Stopping
  import opened Fences
  import opened Machine

  /** What a reconciliation does: end a stopped or a lost run, forget a closed one, acknowledge again, complete the stop. */
  datatype Drive =
    | Recover(lease: Lease, now: nat, storeOk: bool)
    | Lose(lease: Lease, now: nat, storeOk: bool)
    | Forget(lease: Lease)
    | Acknowledge(token: Token, wake: nat, storeOk: bool)
    | Complete(storeOk: bool)

  function After(s: State, d: Drive): State {
    match d
    case Recover(l, now, ok) => RecoverStopped(s, l, now, ok)
    case Lose(l, now, ok) => LoseRuntime(s, l, now, ok)
    case Forget(l) => ForgetLost(s, l)
    case Acknowledge(t, w, ok) => CompleteDelivery(s, t, true, w, ok)
    case Complete(ok) => CompleteStop(s, true, ok)
  }

  function Driven(s: State, drives: seq<Drive>): State {
    hide After; if drives == [] then s else After(Driven(s, drives[..|drives| - 1]), drives[|drives| - 1])
  }

  lemma NothingDriven(s: State)
    ensures Driven(s, []) == s
  {
  }

  lemma DrivenOneMore(s: State, drives: seq<Drive>, d: Drive)
    ensures Driven(s, drives + [d]) == After(Driven(s, drives), d)
  {
    hide After;
    assert (drives + [d])[..|drives|] == drives;
  }

  lemma {:induction false} DrivenOn(s: State, a: seq<Drive>, b: seq<Drive>)
    ensures Driven(s, a + b) == Driven(Driven(s, a), b)
  {
    hide After;
    if b == [] {
      assert a + b == a;
    } else {
      DrivenOn(s, a, b[..|b| - 1]);
      assert (a + b)[..|a + b| - 1] == a + b[..|b| - 1];
    }
  }

  // ---- As runs of the machine ----

  function StepOf(d: Drive): Step {
    match d
    case Recover(l, now, ok) => Stops(DoRecoverStopped(l, now, ok))
    case Lose(l, now, ok) => Stops(DoLoseRuntime(l, now, ok))
    case Forget(l) => Stops(DoForgetLost(l))
    case Acknowledge(t, w, ok) => Delivers(DoCompleteDelivery(t, true, w, ok))
    case Complete(ok) => Stops(DoCompleteStop(true, ok))
  }

  function StepsOf(drives: seq<Drive>): (r: seq<Step>)
    ensures |r| == |drives| && forall k | 0 <= k < |drives| :: r[k] == StepOf(drives[k])
  {
    seq(|drives|, k requires 0 <= k < |drives| => StepOf(drives[k]))
  }

  lemma DriveIsStep(s: State, d: Drive)
    ensures After(s, d) == Next(s, StepOf(d))
  {
    hide NextStart, NextFinish, NextClaim, NextFence, StopSubtree, RecoverStopped, CompleteStop, Restart, LoseRuntime, ForgetLost, BeginClosing,
         CloseResumability, CloseUnrestorable, OpenAttention, ForgetAttention, BeginDelivery, PostUpdate, PlanDelivery, CompleteDelivery, LeaveForRetry,
         HoldClaim, DropClaim, WithdrawWaiter, DropStoppedWaiter, AnswerWaiter;
  }

  /** What a reconciliation does is a run of the machine. */
  lemma {:induction false} DrivenIsRun(s: State, drives: seq<Drive>)
    ensures Driven(s, drives) == Run(s, StepsOf(drives))
  {
    hide After, Next, StepOf;
    if drives != [] {
      var init, d := drives[..|drives| - 1], drives[|drives| - 1];
      DrivenIsRun(s, init);
      assert StepsOf(drives)[..|drives| - 1] == StepsOf(init);
      DriveIsStep(Driven(s, init), d);
    }
  }
}
