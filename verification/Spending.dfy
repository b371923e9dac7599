/** What becomes of the tokens of the retry budget in one call. */
module Spending {
  import opened Base
  import opened Protocol
  import opened Counting
  import opened Labels
  import opened Story

  function Granted(grants: nat, step: Step): nat {
    if step.Budgeted? && step.granted then grants + 1 else grants
  }

  /** The tokens that the budget has given to the call. */
  function Grants(trace: seq<Step>): nat {
    if trace == [] then 0 else Granted(Grants(trace[..|trace| - 1]), trace[|trace| - 1])
  }

  /** The call was stopped after a token had been spent on an attempt and before that attempt was sent: by
      the server's Retry-After, by the gate, by the caller, by a body that could not be produced again, or by
      a hook between the attempts. A hook that stops even the giving up does so for the reason it was given. */
  predicate Wasted(why: Why, reason: Option<Reason>) {
    match why
    case TooFarOff(_) => true
    case GateShut(_) => true
    case CallerGone => true
    case BodyBroken(_) => true
    case HookStop(phase, _) =>
      || phase.Before? || phase.Reconcile?
      || (phase.GiveUp? && (reason == Some(RetryAfterTooLong) || reason == Some(DownstreamDown)))
    case _ => false
  }

  /** The first attempt is free; every further one has cost a token, and so has one that was never sent. */
  predicate Spent(attempts: nat, grants: nat, wasted: bool) {
    grants == if wasted || attempts == 0 then attempts else attempts - 1
  }

  ghost predicate SpendInv(s: State, grants: nat, why: Why) {
    var d := s.data;
    match StageOf(s.pc)
    case Unbuilt => grants == d.attempts
    case Unsent => grants == d.attempts
    case InFlight => grants == d.attempts - 1
    case Judged => grants == if s.pc.Refunding? || s.pc.Spending? then d.attempts - 1 else d.attempts
    case Resting => grants == d.attempts
    case Ending => Spent(d.attempts, grants, Wasted(why, d.reason))
  }

  lemma SpendUnbuilt(cfg: Config, s: State, step: Step, grants: nat, why: Why)
    requires StageOf(s.pc) == Unbuilt && Counts(cfg, s) && LabelInv(cfg, s, why) && SpendInv(s, grants, why)
    requires NextUnbuilt(cfg, s, step).Some?
    ensures SpendInv(NextUnbuilt(cfg, s, step).value, Granted(grants, step), why.Then(cfg, step))
  {
  }

  lemma SpendBefore(cfg: Config, s: State, step: Step, grants: nat, why: Why)
    requires StageOf(s.pc) == Unsent && (s.pc.Running? || s.pc.Telling?) && Counts(cfg, s) && LabelInv(cfg, s, why)
    requires SpendInv(s, grants, why)
    requires NextUnsent(cfg, s, step).Some?
    ensures SpendInv(NextUnsent(cfg, s, step).value, Granted(grants, step), why.Then(cfg, step))
  {
  }

  lemma SpendStart(cfg: Config, s: State, step: Step, grants: nat, why: Why)
    requires StageOf(s.pc) == Unsent && !s.pc.Running? && !s.pc.Telling? && Counts(cfg, s) && LabelInv(cfg, s, why)
    requires SpendInv(s, grants, why)
    requires NextUnsent(cfg, s, step).Some?
    ensures SpendInv(NextUnsent(cfg, s, step).value, Granted(grants, step), why.Then(cfg, step))
  {
  }

  lemma SpendUnsent(cfg: Config, s: State, step: Step, grants: nat, why: Why)
    requires StageOf(s.pc) == Unsent && Counts(cfg, s) && LabelInv(cfg, s, why) && SpendInv(s, grants, why)
    requires NextUnsent(cfg, s, step).Some?
    ensures SpendInv(NextUnsent(cfg, s, step).value, Granted(grants, step), why.Then(cfg, step))
  {
    if s.pc.Running? || s.pc.Telling? {
      SpendBefore(cfg, s, step, grants, why);
    } else {
      SpendStart(cfg, s, step, grants, why);
    }
  }

  lemma SpendAfter(cfg: Config, s: State, step: Step, grants: nat, why: Why)
    requires StageOf(s.pc) == InFlight && (s.pc.Running? || s.pc.Telling?) && Counts(cfg, s) && LabelInv(cfg, s, why)
    requires SpendInv(s, grants, why)
    requires NextInFlight(cfg, s, step).Some?
    ensures SpendInv(NextInFlight(cfg, s, step).value, Granted(grants, step), why.Then(cfg, step))
  {
  }

  lemma SpendSent(cfg: Config, s: State, step: Step, grants: nat, why: Why)
    requires StageOf(s.pc) == InFlight && !s.pc.Running? && !s.pc.Telling? && Counts(cfg, s) && LabelInv(cfg, s, why)
    requires SpendInv(s, grants, why)
    requires NextInFlight(cfg, s, step).Some?
    ensures SpendInv(NextInFlight(cfg, s, step).value, Granted(grants, step), why.Then(cfg, step))
  {
  }

  lemma SpendInFlight(cfg: Config, s: State, step: Step, grants: nat, why: Why)
    requires StageOf(s.pc) == InFlight && Counts(cfg, s) && LabelInv(cfg, s, why) && SpendInv(s, grants, why)
    requires NextInFlight(cfg, s, step).Some?
    ensures SpendInv(NextInFlight(cfg, s, step).value, Granted(grants, step), why.Then(cfg, step))
  {
    if s.pc.Running? || s.pc.Telling? {
      SpendAfter(cfg, s, step, grants, why);
    } else {
      SpendSent(cfg, s, step, grants, why);
    }
  }

  lemma SpendChoosing(cfg: Config, s: State, step: Step, grants: nat, why: Why)
    requires StageOf(s.pc) == Judged && Counts(cfg, s) && LabelInv(cfg, s, why) && SpendInv(s, grants, why)
    requires s.pc.Choosing?
    requires NextJudged(cfg, s, step).Some?
    ensures SpendInv(NextJudged(cfg, s, step).value, Granted(grants, step), why.Then(cfg, step))
  {
  }

  lemma SpendAsking(cfg: Config, s: State, step: Step, grants: nat, why: Why)
    requires StageOf(s.pc) == Judged && Counts(cfg, s) && LabelInv(cfg, s, why) && SpendInv(s, grants, why)
    requires s.pc.Refunding? || s.pc.Spending?
    requires NextJudged(cfg, s, step).Some?
    ensures SpendInv(NextJudged(cfg, s, step).value, Granted(grants, step), why.Then(cfg, step))
  {
  }

  lemma SpendWaiting(cfg: Config, s: State, step: Step, grants: nat, why: Why)
    requires StageOf(s.pc) == Judged && Counts(cfg, s) && LabelInv(cfg, s, why) && SpendInv(s, grants, why)
    requires s.pc.Announcing? || s.pc.Draining?
    requires NextJudged(cfg, s, step).Some?
    ensures SpendInv(NextJudged(cfg, s, step).value, Granted(grants, step), why.Then(cfg, step))
  {
  }

  lemma SpendJudged(cfg: Config, s: State, step: Step, grants: nat, why: Why)
    requires StageOf(s.pc) == Judged && Counts(cfg, s) && LabelInv(cfg, s, why) && SpendInv(s, grants, why)
    requires NextJudged(cfg, s, step).Some?
    ensures SpendInv(NextJudged(cfg, s, step).value, Granted(grants, step), why.Then(cfg, step))
  {
    if s.pc.Choosing? {
      SpendChoosing(cfg, s, step, grants, why);
    } else if s.pc.Refunding? || s.pc.Spending? {
      SpendAsking(cfg, s, step, grants, why);
    } else {
      SpendWaiting(cfg, s, step, grants, why);
    }
  }

  lemma SpendReconcile(cfg: Config, s: State, step: Step, grants: nat, why: Why)
    requires StageOf(s.pc) == Resting && (s.pc.Running? || s.pc.Telling?) && Counts(cfg, s) && LabelInv(cfg, s, why)
    requires SpendInv(s, grants, why)
    requires NextResting(cfg, s, step).Some?
    ensures SpendInv(NextResting(cfg, s, step).value, Granted(grants, step), why.Then(cfg, step))
  {
  }

  lemma SpendPause(cfg: Config, s: State, step: Step, grants: nat, why: Why)
    requires StageOf(s.pc) == Resting && !s.pc.Running? && !s.pc.Telling? && Counts(cfg, s) && LabelInv(cfg, s, why)
    requires SpendInv(s, grants, why)
    requires NextResting(cfg, s, step).Some?
    ensures SpendInv(NextResting(cfg, s, step).value, Granted(grants, step), why.Then(cfg, step))
  {
  }

  lemma SpendResting(cfg: Config, s: State, step: Step, grants: nat, why: Why)
    requires StageOf(s.pc) == Resting && Counts(cfg, s) && LabelInv(cfg, s, why) && SpendInv(s, grants, why)
    requires NextResting(cfg, s, step).Some?
    ensures SpendInv(NextResting(cfg, s, step).value, Granted(grants, step), why.Then(cfg, step))
  {
    if s.pc.Running? || s.pc.Telling? {
      SpendReconcile(cfg, s, step, grants, why);
    } else {
      SpendPause(cfg, s, step, grants, why);
    }
  }

  lemma SpendGiveUp(cfg: Config, s: State, step: Step, grants: nat, why: Why)
    requires StageOf(s.pc) == Ending && (s.pc.Running? || s.pc.Telling?) && Counts(cfg, s) && LabelInv(cfg, s, why)
    requires SpendInv(s, grants, why)
    requires NextEnding(cfg, s, step).Some?
    ensures SpendInv(NextEnding(cfg, s, step).value, Granted(grants, step), why.Then(cfg, step))
  {
  }

  lemma SpendDisposing(cfg: Config, s: State, step: Step, grants: nat, why: Why)
    requires StageOf(s.pc) == Ending && !s.pc.Running? && !s.pc.Telling? && Counts(cfg, s) && LabelInv(cfg, s, why)
    requires SpendInv(s, grants, why)
    requires s.pc.Dropping? || s.pc.Handing?
    requires NextEnding(cfg, s, step).Some?
    ensures SpendInv(NextEnding(cfg, s, step).value, Granted(grants, step), why.Then(cfg, step))
  {
  }

  lemma SpendClosing(cfg: Config, s: State, step: Step, grants: nat, why: Why)
    requires StageOf(s.pc) == Ending && !s.pc.Running? && !s.pc.Telling? && Counts(cfg, s) && LabelInv(cfg, s, why)
    requires SpendInv(s, grants, why)
    requires !s.pc.Dropping? && !s.pc.Handing?
    requires NextEnding(cfg, s, step).Some?
    ensures SpendInv(NextEnding(cfg, s, step).value, Granted(grants, step), why.Then(cfg, step))
  {
  }

  lemma SpendLeaving(cfg: Config, s: State, step: Step, grants: nat, why: Why)
    requires StageOf(s.pc) == Ending && !s.pc.Running? && !s.pc.Telling? && Counts(cfg, s) && LabelInv(cfg, s, why)
    requires SpendInv(s, grants, why)
    requires NextEnding(cfg, s, step).Some?
    ensures SpendInv(NextEnding(cfg, s, step).value, Granted(grants, step), why.Then(cfg, step))
  {
    if s.pc.Dropping? || s.pc.Handing? {
      SpendDisposing(cfg, s, step, grants, why);
    } else {
      SpendClosing(cfg, s, step, grants, why);
    }
  }

  lemma SpendEnding(cfg: Config, s: State, step: Step, grants: nat, why: Why)
    requires StageOf(s.pc) == Ending && Counts(cfg, s) && LabelInv(cfg, s, why) && SpendInv(s, grants, why)
    requires NextEnding(cfg, s, step).Some?
    ensures SpendInv(NextEnding(cfg, s, step).value, Granted(grants, step), why.Then(cfg, step))
  {
    if s.pc.Running? || s.pc.Telling? {
      SpendGiveUp(cfg, s, step, grants, why);
    } else {
      SpendLeaving(cfg, s, step, grants, why);
    }
  }

  lemma SpendStep(cfg: Config, s: State, step: Step, grants: nat, why: Why)
    requires Counts(cfg, s) && LabelInv(cfg, s, why) && SpendInv(s, grants, why) && Next(cfg, s, step).Some?
    ensures SpendInv(Next(cfg, s, step).value, Granted(grants, step), why.Then(cfg, step))
  {
    match StageOf(s.pc)
    case Unbuilt => SpendUnbuilt(cfg, s, step, grants, why);
    case Unsent => SpendUnsent(cfg, s, step, grants, why);
    case InFlight => SpendInFlight(cfg, s, step, grants, why);
    case Judged => SpendJudged(cfg, s, step, grants, why);
    case Resting => SpendResting(cfg, s, step, grants, why);
    case Ending => SpendEnding(cfg, s, step, grants, why);
  }

  lemma {:induction false} SpendAlways(cfg: Config, trace: seq<Step>)
    requires cfg.Normal() && Run(cfg, trace).Some?
    ensures SpendInv(Run(cfg, trace).value, Grants(trace), Told(cfg, trace))
  {
    if trace != [] {
      var before := trace[..|trace| - 1];
      CountsAlways(cfg, before);
      LabelAlways(cfg, before);
      SpendAlways(cfg, before);
      SpendStep(cfg, Run(cfg, before).value, trace[|trace| - 1], Grants(before), Told(cfg, before));
    }
  }

  /** MAIN RESULT. A call that is over and has sent anything has spent one token for every send after the
      first, and exactly if it was stopped between a grant and its send, one more that nothing came of. */
  lemma {:induction false} TokenIsWastedIff(cfg: Config, trace: seq<Step>, s: State)
    requires cfg.Normal() && Run(cfg, trace) == Some(s) && s.pc.Halted? && s.data.attempts > 0
    ensures s.data.attempts - 1 <= Grants(trace) <= s.data.attempts
    ensures Grants(trace) == s.data.attempts <==> Wasted(Told(cfg, trace), s.data.reason)
  {
    SpendAlways(cfg, trace);
  }

  /** The refunds that a call has brought the budget. */
  function Refunds(trace: seq<Step>): nat {
    if trace == [] then 0 else Refunds(trace[..|trace| - 1]) + (if trace[|trace| - 1].Refunded? then 1 else 0)
  }

  /** The call ends, or has ended, as a success. */
  predicate Won(pc: Pc) {
    || ((pc.Dropping? || pc.Handing? || pc.Leaving?) && pc.final.result == Succeeded)
    || (pc.Halted? && pc.result.Some? && pc.result.value.result == Succeeded)
  }

  /** A call becomes a success by its refund and by nothing else, and stays one. */
  predicate WinsByRefund(s: State, step: Step, t: State) {
    && (Won(t.pc) <==> Won(s.pc) || step.Refunded?)
    && (step.Refunded? ==> !Won(s.pc))
  }

  lemma WonUnbuilt(cfg: Config, s: State, step: Step)
    requires StageOf(s.pc) == Unbuilt && NextUnbuilt(cfg, s, step).Some?
    ensures WinsByRefund(s, step, NextUnbuilt(cfg, s, step).value)
  {
  }

  lemma WonUnsent(cfg: Config, s: State, step: Step)
    requires StageOf(s.pc) == Unsent && NextUnsent(cfg, s, step).Some?
    ensures WinsByRefund(s, step, NextUnsent(cfg, s, step).value)
  {
  }

  lemma WonInFlight(cfg: Config, s: State, step: Step)
    requires StageOf(s.pc) == InFlight && NextInFlight(cfg, s, step).Some?
    ensures WinsByRefund(s, step, NextInFlight(cfg, s, step).value)
  {
  }

  lemma WonJudged(cfg: Config, s: State, step: Step)
    requires StageOf(s.pc) == Judged && NextJudged(cfg, s, step).Some?
    ensures WinsByRefund(s, step, NextJudged(cfg, s, step).value)
  {
  }

  lemma WonResting(cfg: Config, s: State, step: Step)
    requires StageOf(s.pc) == Resting && NextResting(cfg, s, step).Some?
    ensures WinsByRefund(s, step, NextResting(cfg, s, step).value)
  {
  }

  lemma WonEnding(cfg: Config, s: State, step: Step)
    requires StageOf(s.pc) == Ending && NextEnding(cfg, s, step).Some?
    ensures WinsByRefund(s, step, NextEnding(cfg, s, step).value)
  {
  }

  lemma WonStep(cfg: Config, s: State, step: Step)
    requires Next(cfg, s, step).Some?
    ensures WinsByRefund(s, step, Next(cfg, s, step).value)
  {
    match StageOf(s.pc)
    case Unbuilt => WonUnbuilt(cfg, s, step);
    case Unsent => WonUnsent(cfg, s, step);
    case InFlight => WonInFlight(cfg, s, step);
    case Judged => WonJudged(cfg, s, step);
    case Resting => WonResting(cfg, s, step);
    case Ending => WonEnding(cfg, s, step);
  }

  lemma {:induction false} RefundsAlways(cfg: Config, trace: seq<Step>)
    requires Run(cfg, trace).Some?
    ensures Refunds(trace) == if Won(Run(cfg, trace).value.pc) then 1 else 0
  {
    if trace != [] {
      var before := trace[..|trace| - 1];
      RefundsAlways(cfg, before);
      WonStep(cfg, Run(cfg, before).value, trace[|trace| - 1]);
    }
  }

  /** MAIN RESULT. A call that is over has refunded the budget once if it ended as a success, which is when
      the last of its outcomes was one, and otherwise never. */
  lemma {:induction false} OnlySuccessRefunds(cfg: Config, trace: seq<Step>, s: State)
    requires cfg.Normal() && Run(cfg, trace) == Some(s) && s.pc.Halted?
    ensures Refunds(trace) == if s.pc.result.Some? && s.pc.result.value.result == Succeeded then 1 else 0
    ensures Refunds(trace) == 1 <==> Told(cfg, trace).Classed? && Told(cfg, trace).outcome.Success?
  {
    RefundsAlways(cfg, trace);
    LabelAlways(cfg, trace);
  }
}
