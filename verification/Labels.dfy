/** How a call ends follows from its story: the result label, the response and the error. */
module Labels {
  import opened Base
  import opened Protocol
  import opened Counting
  import opened Story

  /** What a story of giving up says of the attempt that it is about. */
  predicate Sound(cfg: Config, d: Data, why: Why) {
    && (why.Classed? ==>
          && why.n == d.n == d.attempts && d.history != []
          && d.history[|d.history| - 1].n == why.n && d.history[|d.history| - 1].outcome == why.outcome)
    && (why.TooFarOff? ==> d.Answered() && why.retryAfter > cfg.maxRetryAfter)
    && (why.GateShut? ==> cfg.gated && (if why.place.AtStart? then d.attempts == 0 else d.attempts == d.n))
  }

  /** The result is the one that the story calls for. */
  predicate Right(cfg: Config, d: Data, f: Final, why: Why) {
    Due(cfg, why, d) == Some(f) && (GaveUp(cfg, why, d.plan.OneShot?) ==> Sound(cfg, d, why))
  }

  /** The reason for giving up is the one that the story tells, and what is handed back can still change
      only if a give-up hook stops the call. */
  predicate RightReason(cfg: Config, d: Data, why: Why) {
    && d.reason.Some? && d.reason == ReasonTold(cfg, why, d.plan.OneShot?) && Sound(cfg, d, why)
    && (d.Answered() ==> d.live == !why.GateShut?)
  }

  ghost predicate PhaseInv(cfg: Config, d: Data, phase: Phase, why: Why) {
    match phase
    case GiveUp => RightReason(cfg, d, why)
    case After => why == Nothing
    case _ => !why.CallerGone?
  }

  ghost predicate JudgedInv(d: Data, why: Why) {
    && why.Classed? && why.n == d.n && d.history != []
    && d.history[|d.history| - 1].n == why.n && d.history[|d.history| - 1].outcome == why.outcome
  }

  /** Only a gated call looks at the gate, and only its first attempt does so before it is sent. */
  predicate GateInv(cfg: Config, pc: Pc, n: nat) {
    && (pc.StartChecking? ==> cfg.gated && n == 1)
    && (pc.PauseChecking? || pc.Rechecking? ==> cfg.gated)
    && (pc.Rejecting? || pc.Awaiting? || pc.Jittering? || pc.Admitting? || pc.Expiring? ==>
          cfg.gated && (pc.place.AtStart? ==> n == 1))
  }

  ghost predicate LabelInv(cfg: Config, s: State, why: Why) {
    var d := s.data;
    var pc := s.pc;
    if pc.Telling? then
      if pc.verdict.Continue? then PhaseInv(cfg, d, pc.phase, why) else why == HookStop(pc.phase, pc.verdict)
    else if pc.Running? then PhaseInv(cfg, d, pc.phase, why)
    else if pc.Losing? then d.reply.Some? && d.reply.value.Failed? && why == Abandoned(d.reply.value.err)
    else if pc.Classifying? || pc.Reporting? then why == Nothing
    else if pc.Logging? then why == if pc.verdict.Continue? then Nothing else HookStop(After, pc.verdict)
    else if StageOf(pc).Judged? then JudgedInv(d, why) && (pc.Refunding? ==> why.outcome.Success?)
    else if pc.Dropping? || pc.Handing? || pc.Leaving? then Right(cfg, d, pc.final, why)
    else if pc.Halted? && pc.result.Some? then Right(cfg, d, pc.result.value, why)
    else if pc.Halted? || pc.Crashing? then why.HookStop? && why.verdict.Panic?
    else GateInv(cfg, pc, d.n) && !why.CallerGone?
  }

  lemma LabelUnbuilt(cfg: Config, s: State, step: Step, why: Why)
    requires StageOf(s.pc) == Unbuilt && Counts(cfg, s) && LabelInv(cfg, s, why)
    requires NextUnbuilt(cfg, s, step).Some?
    ensures LabelInv(cfg, NextUnbuilt(cfg, s, step).value, why.Then(cfg, step))
  {
  }

  lemma LabelBefore(cfg: Config, s: State, step: Step, why: Why)
    requires StageOf(s.pc) == Unsent && (s.pc.Running? || s.pc.Telling?) && Counts(cfg, s) && LabelInv(cfg, s, why)
    requires NextUnsent(cfg, s, step).Some?
    ensures LabelInv(cfg, NextUnsent(cfg, s, step).value, why.Then(cfg, step))
  {
  }

  lemma LabelAwaiting(cfg: Config, s: State, step: Step, why: Why)
    requires StageOf(s.pc) == Unsent && !s.pc.Running? && !s.pc.Telling? && Counts(cfg, s) && LabelInv(cfg, s, why)
    requires s.pc.Rejecting? || s.pc.Awaiting? || s.pc.Jittering? || s.pc.Admitting? || s.pc.Expiring?
    requires NextUnsent(cfg, s, step).Some?
    ensures LabelInv(cfg, NextUnsent(cfg, s, step).value, why.Then(cfg, step))
  {
  }

  lemma LabelStart(cfg: Config, s: State, step: Step, why: Why)
    requires StageOf(s.pc) == Unsent && !s.pc.Running? && !s.pc.Telling? && Counts(cfg, s) && LabelInv(cfg, s, why)
    requires !(s.pc.Rejecting? || s.pc.Awaiting? || s.pc.Jittering? || s.pc.Admitting? || s.pc.Expiring?)
    requires NextUnsent(cfg, s, step).Some?
    ensures LabelInv(cfg, NextUnsent(cfg, s, step).value, why.Then(cfg, step))
  {
  }

  lemma LabelStartGate(cfg: Config, s: State, step: Step, why: Why)
    requires StageOf(s.pc) == Unsent && !s.pc.Running? && !s.pc.Telling? && Counts(cfg, s) && LabelInv(cfg, s, why)
    requires NextUnsent(cfg, s, step).Some?
    ensures LabelInv(cfg, NextUnsent(cfg, s, step).value, why.Then(cfg, step))
  {
    if s.pc.Rejecting? || s.pc.Awaiting? || s.pc.Jittering? || s.pc.Admitting? || s.pc.Expiring? {
      LabelAwaiting(cfg, s, step, why);
    } else {
      LabelStart(cfg, s, step, why);
    }
  }

  lemma LabelUnsent(cfg: Config, s: State, step: Step, why: Why)
    requires StageOf(s.pc) == Unsent && Counts(cfg, s) && LabelInv(cfg, s, why)
    requires NextUnsent(cfg, s, step).Some?
    ensures LabelInv(cfg, NextUnsent(cfg, s, step).value, why.Then(cfg, step))
  {
    if s.pc.Running? || s.pc.Telling? {
      LabelBefore(cfg, s, step, why);
    } else {
      LabelStartGate(cfg, s, step, why);
    }
  }

  lemma LabelAfter(cfg: Config, s: State, step: Step, why: Why)
    requires StageOf(s.pc) == InFlight && (s.pc.Running? || s.pc.Telling?) && Counts(cfg, s) && LabelInv(cfg, s, why)
    requires NextInFlight(cfg, s, step).Some?
    ensures LabelInv(cfg, NextInFlight(cfg, s, step).value, why.Then(cfg, step))
  {
  }

  lemma LabelLogging(cfg: Config, s: State, step: Step, why: Why)
    requires StageOf(s.pc) == InFlight && !s.pc.Running? && !s.pc.Telling? && Counts(cfg, s) && LabelInv(cfg, s, why)
    requires s.pc.Logging?
    requires NextInFlight(cfg, s, step).Some?
    ensures LabelInv(cfg, NextInFlight(cfg, s, step).value, why.Then(cfg, step))
  {
  }

  lemma LabelClassifying(cfg: Config, s: State, step: Step, why: Why)
    requires StageOf(s.pc) == InFlight && !s.pc.Running? && !s.pc.Telling? && Counts(cfg, s) && LabelInv(cfg, s, why)
    requires !s.pc.Logging?
    requires NextInFlight(cfg, s, step).Some?
    ensures LabelInv(cfg, NextInFlight(cfg, s, step).value, why.Then(cfg, step))
  {
  }

  lemma LabelSent(cfg: Config, s: State, step: Step, why: Why)
    requires StageOf(s.pc) == InFlight && !s.pc.Running? && !s.pc.Telling? && Counts(cfg, s) && LabelInv(cfg, s, why)
    requires NextInFlight(cfg, s, step).Some?
    ensures LabelInv(cfg, NextInFlight(cfg, s, step).value, why.Then(cfg, step))
  {
    if s.pc.Logging? {
      LabelLogging(cfg, s, step, why);
    } else {
      LabelClassifying(cfg, s, step, why);
    }
  }

  lemma LabelInFlight(cfg: Config, s: State, step: Step, why: Why)
    requires StageOf(s.pc) == InFlight && Counts(cfg, s) && LabelInv(cfg, s, why)
    requires NextInFlight(cfg, s, step).Some?
    ensures LabelInv(cfg, NextInFlight(cfg, s, step).value, why.Then(cfg, step))
  {
    if s.pc.Running? || s.pc.Telling? {
      LabelAfter(cfg, s, step, why);
    } else {
      LabelSent(cfg, s, step, why);
    }
  }

  lemma LabelChoosing(cfg: Config, s: State, step: Step, why: Why)
    requires StageOf(s.pc) == Judged && Counts(cfg, s) && LabelInv(cfg, s, why)
    requires s.pc.Choosing?
    requires NextJudged(cfg, s, step).Some?
    ensures LabelInv(cfg, NextJudged(cfg, s, step).value, why.Then(cfg, step))
  {
  }

  lemma LabelSpending(cfg: Config, s: State, step: Step, why: Why)
    requires StageOf(s.pc) == Judged && Counts(cfg, s) && LabelInv(cfg, s, why)
    requires s.pc.Refunding? || s.pc.Spending?
    requires NextJudged(cfg, s, step).Some?
    ensures LabelInv(cfg, NextJudged(cfg, s, step).value, why.Then(cfg, step))
  {
  }

  lemma LabelWaiting(cfg: Config, s: State, step: Step, why: Why)
    requires StageOf(s.pc) == Judged && Counts(cfg, s) && LabelInv(cfg, s, why)
    requires s.pc.Announcing? || s.pc.Draining?
    requires NextJudged(cfg, s, step).Some?
    ensures LabelInv(cfg, NextJudged(cfg, s, step).value, why.Then(cfg, step))
  {
  }

  lemma LabelJudged(cfg: Config, s: State, step: Step, why: Why)
    requires StageOf(s.pc) == Judged && Counts(cfg, s) && LabelInv(cfg, s, why)
    requires NextJudged(cfg, s, step).Some?
    ensures LabelInv(cfg, NextJudged(cfg, s, step).value, why.Then(cfg, step))
  {
    if s.pc.Choosing? {
      LabelChoosing(cfg, s, step, why);
    } else if s.pc.Refunding? || s.pc.Spending? {
      LabelSpending(cfg, s, step, why);
    } else {
      LabelWaiting(cfg, s, step, why);
    }
  }

  lemma LabelReconcile(cfg: Config, s: State, step: Step, why: Why)
    requires StageOf(s.pc) == Resting && (s.pc.Running? || s.pc.Telling?) && Counts(cfg, s) && LabelInv(cfg, s, why)
    requires NextResting(cfg, s, step).Some?
    ensures LabelInv(cfg, NextResting(cfg, s, step).value, why.Then(cfg, step))
  {
  }

  lemma LabelRetryGate(cfg: Config, s: State, step: Step, why: Why)
    requires StageOf(s.pc) == Resting && !s.pc.Running? && !s.pc.Telling? && Counts(cfg, s) && LabelInv(cfg, s, why)
    requires s.pc.Rejecting? || s.pc.Awaiting? || s.pc.Jittering? || s.pc.Admitting? || s.pc.Expiring?
    requires NextResting(cfg, s, step).Some?
    ensures LabelInv(cfg, NextResting(cfg, s, step).value, why.Then(cfg, step))
  {
  }

  lemma LabelSleeping(cfg: Config, s: State, step: Step, why: Why)
    requires StageOf(s.pc) == Resting && !s.pc.Running? && !s.pc.Telling? && Counts(cfg, s) && LabelInv(cfg, s, why)
    requires !(s.pc.Rejecting? || s.pc.Awaiting? || s.pc.Jittering? || s.pc.Admitting? || s.pc.Expiring?)
    requires NextResting(cfg, s, step).Some?
    ensures LabelInv(cfg, NextResting(cfg, s, step).value, why.Then(cfg, step))
  {
  }

  lemma LabelPause(cfg: Config, s: State, step: Step, why: Why)
    requires StageOf(s.pc) == Resting && !s.pc.Running? && !s.pc.Telling? && Counts(cfg, s) && LabelInv(cfg, s, why)
    requires NextResting(cfg, s, step).Some?
    ensures LabelInv(cfg, NextResting(cfg, s, step).value, why.Then(cfg, step))
  {
    if s.pc.Rejecting? || s.pc.Awaiting? || s.pc.Jittering? || s.pc.Admitting? || s.pc.Expiring? {
      LabelRetryGate(cfg, s, step, why);
    } else {
      LabelSleeping(cfg, s, step, why);
    }
  }

  lemma LabelResting(cfg: Config, s: State, step: Step, why: Why)
    requires StageOf(s.pc) == Resting && Counts(cfg, s) && LabelInv(cfg, s, why)
    requires NextResting(cfg, s, step).Some?
    ensures LabelInv(cfg, NextResting(cfg, s, step).value, why.Then(cfg, step))
  {
    if s.pc.Running? || s.pc.Telling? {
      LabelReconcile(cfg, s, step, why);
    } else {
      LabelPause(cfg, s, step, why);
    }
  }

  lemma LabelGiveUp(cfg: Config, s: State, step: Step, why: Why)
    requires StageOf(s.pc) == Ending && (s.pc.Running? || s.pc.Telling?) && Counts(cfg, s) && LabelInv(cfg, s, why)
    requires NextEnding(cfg, s, step).Some?
    ensures LabelInv(cfg, NextEnding(cfg, s, step).value, why.Then(cfg, step))
  {
  }

  lemma LabelDisposing(cfg: Config, s: State, step: Step, why: Why)
    requires StageOf(s.pc) == Ending && !s.pc.Running? && !s.pc.Telling? && Counts(cfg, s) && LabelInv(cfg, s, why)
    requires s.pc.Dropping? || s.pc.Handing?
    requires NextEnding(cfg, s, step).Some?
    ensures LabelInv(cfg, NextEnding(cfg, s, step).value, why.Then(cfg, step))
  {
  }

  lemma LabelClosing(cfg: Config, s: State, step: Step, why: Why)
    requires StageOf(s.pc) == Ending && !s.pc.Running? && !s.pc.Telling? && Counts(cfg, s) && LabelInv(cfg, s, why)
    requires !s.pc.Dropping? && !s.pc.Handing?
    requires NextEnding(cfg, s, step).Some?
    ensures LabelInv(cfg, NextEnding(cfg, s, step).value, why.Then(cfg, step))
  {
  }

  lemma LabelLeaving(cfg: Config, s: State, step: Step, why: Why)
    requires StageOf(s.pc) == Ending && !s.pc.Running? && !s.pc.Telling? && Counts(cfg, s) && LabelInv(cfg, s, why)
    requires NextEnding(cfg, s, step).Some?
    ensures LabelInv(cfg, NextEnding(cfg, s, step).value, why.Then(cfg, step))
  {
    if s.pc.Dropping? || s.pc.Handing? {
      LabelDisposing(cfg, s, step, why);
    } else {
      LabelClosing(cfg, s, step, why);
    }
  }

  lemma LabelEnding(cfg: Config, s: State, step: Step, why: Why)
    requires StageOf(s.pc) == Ending && Counts(cfg, s) && LabelInv(cfg, s, why)
    requires NextEnding(cfg, s, step).Some?
    ensures LabelInv(cfg, NextEnding(cfg, s, step).value, why.Then(cfg, step))
  {
    if s.pc.Running? || s.pc.Telling? {
      LabelGiveUp(cfg, s, step, why);
    } else {
      LabelLeaving(cfg, s, step, why);
    }
  }

  lemma LabelStep(cfg: Config, s: State, step: Step, why: Why)
    requires Counts(cfg, s) && LabelInv(cfg, s, why) && Next(cfg, s, step).Some?
    ensures LabelInv(cfg, Next(cfg, s, step).value, why.Then(cfg, step))
  {
    match StageOf(s.pc)
    case Unbuilt => LabelUnbuilt(cfg, s, step, why);
    case Unsent => LabelUnsent(cfg, s, step, why);
    case InFlight => LabelInFlight(cfg, s, step, why);
    case Judged => LabelJudged(cfg, s, step, why);
    case Resting => LabelResting(cfg, s, step, why);
    case Ending => LabelEnding(cfg, s, step, why);
  }

  lemma {:induction false} LabelAlways(cfg: Config, trace: seq<Step>)
    requires cfg.Normal() && Run(cfg, trace).Some?
    ensures LabelInv(cfg, Run(cfg, trace).value, Told(cfg, trace))
  {
    if trace != [] {
      var before := trace[..|trace| - 1];
      CountsAlways(cfg, before);
      LabelAlways(cfg, before);
      LabelStep(cfg, Run(cfg, before).value, trace[|trace| - 1], Told(cfg, before));
    }
  }

  /** MAIN RESULT. The story of a run decides everything that the caller gets: the label, the response and
      the error. There is no result exactly if a hook panicked. */
  lemma {:induction false} LabelTellsTheEnding(cfg: Config, trace: seq<Step>, s: State)
    requires cfg.Normal() && Run(cfg, trace) == Some(s) && s.pc.Halted?
    ensures s.pc.result == Due(cfg, Told(cfg, trace), s.data)
    ensures s.pc.result == None <==> Told(cfg, trace).HookStop? && Told(cfg, trace).verdict.Panic?
  {
    LabelAlways(cfg, trace);
  }

  /** MAIN RESULT. A call that gives up hands back its last response exactly if there is one and the gate
      was not the reason, since only the gate is asked after the response has been drained; otherwise it
      returns the error with the number of attempts, the history and the reason. */
  lemma {:induction false} GivingUpHandsBackIff(cfg: Config, trace: seq<Step>, s: State, f: Final)
    requires cfg.Normal() && Run(cfg, trace) == Some(s) && s.pc == Halted(Some(f))
    requires GaveUp(cfg, Told(cfg, trace), s.data.plan.OneShot?)
    ensures f.resp.Some? <==> s.data.Answered() && !Told(cfg, trace).GateShut?
    ensures f.resp.Some? ==> f.resp == Some(Received(s.data.n)) && f.err == None
    ensures f.resp.None? ==>
      && f.err.Some? && f.err.value.ExhaustedError?
      && f.err.value.attempts == s.data.attempts && f.err.value.history == s.data.history
      && Some(f.err.value.reason) == ReasonTold(cfg, Told(cfg, trace), s.data.plan.OneShot?)
  {
    LabelTellsTheEnding(cfg, trace, s);
  }

  /** MAIN RESULT. The label of a call that gave up, by name: what it ran out of, or ran into. */
  lemma {:induction false} GivingUpIsNamed(cfg: Config, trace: seq<Step>, s: State, f: Final)
    requires cfg.Normal() && Run(cfg, trace) == Some(s) && s.pc == Halted(Some(f))
    requires GaveUp(cfg, Told(cfg, trace), s.data.plan.OneShot?)
    ensures var why := Told(cfg, trace);
            && (why.Refused? ==> f.result == OverBudget)
            && (why.TooFarOff? ==> f.result == TooLong)
            && (why.GateShut? ==> f.result == Unhealthy)
            && (why.Classed? ==>
                  && (why.outcome.NotApplied? || why.outcome.Unknown?)
                  && f.result ==
                       if s.data.attempts == cfg.maxAttempts then Exhausted
                       else if s.data.plan.OneShot? then NotReplayable
                       else Unsafe)
  {
    LabelAlways(cfg, trace);
    CountsAlways(cfg, trace);
  }
}
