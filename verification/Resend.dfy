/** What a call must have gone through before it may send, and send again. */
module Resend {
  import opened Base
  import opened Protocol
  import opened Counting
  import opened Gaps

  lemma GapUnbuilt(cfg: Config, s: State, step: Step, g: Gap)
    requires StageOf(s.pc) == Unbuilt && Counts(cfg, s) && GapInv(cfg, s, g)
    requires NextUnbuilt(cfg, s, step).Some?
    ensures GapInv(cfg, NextUnbuilt(cfg, s, step).value, g.Past(step))
  {
  }

  lemma GapBefore(cfg: Config, s: State, step: Step, g: Gap)
    requires StageOf(s.pc) == Unsent && (s.pc.Running? || s.pc.Telling?) && Counts(cfg, s) && GapInv(cfg, s, g)
    requires NextUnsent(cfg, s, step).Some?
    ensures GapInv(cfg, NextUnsent(cfg, s, step).value, g.Past(step))
  {
  }

  lemma GapSending(cfg: Config, s: State, step: Step, g: Gap)
    requires StageOf(s.pc) == Unsent && s.pc.Sending? && Counts(cfg, s) && GapInv(cfg, s, g)
    requires NextUnsent(cfg, s, step).Some?
    ensures GapInv(cfg, NextUnsent(cfg, s, step).value, g.Past(step))
  {
  }

  lemma GapFirstGate(cfg: Config, s: State, step: Step, g: Gap)
    requires StageOf(s.pc) == Unsent && !s.pc.Running? && !s.pc.Telling? && !s.pc.Sending? && Counts(cfg, s)
    requires s.data.n == 1 && FirstGap(cfg, s.pc, g) && NextUnsent(cfg, s, step).Some?
    ensures var t := NextUnsent(cfg, s, step).value; StageOf(t.pc).Ending? || FirstGap(cfg, t.pc, g.Past(step))
  {
    UnsentFrame(cfg, s, step);
    if !s.pc.StartChecking? {
      assert NextUnsent(cfg, s, step) == NextGate(cfg, s, AtStart, step);
    }
  }

  lemma GapUnsent(cfg: Config, s: State, step: Step, g: Gap)
    requires StageOf(s.pc) == Unsent && Counts(cfg, s) && GapInv(cfg, s, g)
    requires NextUnsent(cfg, s, step).Some?
    ensures GapInv(cfg, NextUnsent(cfg, s, step).value, g.Past(step))
  {
    if s.pc.Running? || s.pc.Telling? {
      GapBefore(cfg, s, step, g);
    } else if s.pc.Sending? {
      GapSending(cfg, s, step, g);
    } else {
      UnsentFrame(cfg, s, step);
      GapFirstGate(cfg, s, step, g);
    }
  }

  lemma GapLogging(cfg: Config, s: State, step: Step, g: Gap)
    requires StageOf(s.pc) == InFlight && s.pc.Logging? && Counts(cfg, s) && GapInv(cfg, s, g)
    requires NextInFlight(cfg, s, step).Some?
    ensures GapInv(cfg, NextInFlight(cfg, s, step).value, g.Past(step))
  {
    InFlightFrame(cfg, s, step);
    var t := NextInFlight(cfg, s, step).value;
    if StageOf(t.pc).Judged? {
      assert JudgedGap(cfg, t, g.Past(step));
    }
  }

  lemma GapUndecided(cfg: Config, s: State, step: Step, g: Gap)
    requires StageOf(s.pc) == InFlight && !s.pc.Logging? && Counts(cfg, s) && GapInv(cfg, s, g)
    requires NextInFlight(cfg, s, step).Some?
    ensures GapInv(cfg, NextInFlight(cfg, s, step).value, g.Past(step))
  {
    InFlightFrame(cfg, s, step);
    assert g.Past(step) == g || s.pc.Losing?;
  }

  lemma GapInFlight(cfg: Config, s: State, step: Step, g: Gap)
    requires StageOf(s.pc) == InFlight && Counts(cfg, s) && GapInv(cfg, s, g)
    requires NextInFlight(cfg, s, step).Some?
    ensures GapInv(cfg, NextInFlight(cfg, s, step).value, g.Past(step))
  {
    if s.pc.Logging? {
      GapLogging(cfg, s, step, g);
    } else {
      InFlightFrame(cfg, s, step);
      GapUndecided(cfg, s, step, g);
    }
  }

  lemma GapSpending(cfg: Config, s: State, step: Step, g: Gap)
    requires StageOf(s.pc) == Judged && (s.pc.Spending? || s.pc.Refunding?) && Counts(cfg, s) && GapInv(cfg, s, g)
    requires NextJudged(cfg, s, step).Some?
    ensures GapInv(cfg, NextJudged(cfg, s, step).value, g.Past(step))
  {
  }

  lemma GapChoosing(cfg: Config, s: State, step: Step, g: Gap)
    requires StageOf(s.pc) == Judged && s.pc.Choosing? && Counts(cfg, s) && GapInv(cfg, s, g)
    requires NextJudged(cfg, s, step).Some?
    ensures GapInv(cfg, NextJudged(cfg, s, step).value, g.Past(step))
  {
  }

  lemma GapTelling(cfg: Config, s: State, step: Step, g: Gap)
    requires StageOf(s.pc) == Judged && (s.pc.Announcing? || s.pc.Draining?) && Counts(cfg, s) && GapInv(cfg, s, g)
    requires s.pc.Announcing?
    requires NextJudged(cfg, s, step).Some?
    ensures GapInv(cfg, NextJudged(cfg, s, step).value, g.Past(step))
  {
  }

  lemma GapDraining(cfg: Config, s: State, step: Step, g: Gap)
    requires StageOf(s.pc) == Judged && (s.pc.Announcing? || s.pc.Draining?) && Counts(cfg, s) && GapInv(cfg, s, g)
    requires s.pc.Draining?
    requires NextJudged(cfg, s, step).Some?
    ensures GapInv(cfg, NextJudged(cfg, s, step).value, g.Past(step))
  {
  }

  lemma GapAnnouncing(cfg: Config, s: State, step: Step, g: Gap)
    requires StageOf(s.pc) == Judged && (s.pc.Announcing? || s.pc.Draining?) && Counts(cfg, s) && GapInv(cfg, s, g)
    requires NextJudged(cfg, s, step).Some?
    ensures GapInv(cfg, NextJudged(cfg, s, step).value, g.Past(step))
  {
    if s.pc.Announcing? {
      GapTelling(cfg, s, step, g);
    } else {
      GapDraining(cfg, s, step, g);
    }
  }

  lemma GapJudged(cfg: Config, s: State, step: Step, g: Gap)
    requires StageOf(s.pc) == Judged && Counts(cfg, s) && GapInv(cfg, s, g)
    requires NextJudged(cfg, s, step).Some?
    ensures GapInv(cfg, NextJudged(cfg, s, step).value, g.Past(step))
  {
    if s.pc.Spending? || s.pc.Refunding? {
      GapSpending(cfg, s, step, g);
    } else if s.pc.Choosing? {
      GapChoosing(cfg, s, step, g);
    } else {
      GapAnnouncing(cfg, s, step, g);
    }
  }

  lemma GapReconcile(cfg: Config, s: State, step: Step, g: Gap)
    requires StageOf(s.pc) == Resting && (s.pc.Running? || s.pc.Telling?) && Counts(cfg, s) && GapInv(cfg, s, g)
    requires NextResting(cfg, s, step).Some?
    ensures GapInv(cfg, NextResting(cfg, s, step).value, g.Past(step))
  {
  }

  lemma GapPause(cfg: Config, s: State, step: Step, g: Gap)
    requires StageOf(s.pc) == Resting && (s.pc.PauseChecking? || s.pc.Sleeping? || s.pc.Rechecking?) && Counts(cfg, s)
    requires GapInv(cfg, s, g)
    requires NextResting(cfg, s, step).Some?
    ensures GapInv(cfg, NextResting(cfg, s, step).value, g.Past(step))
  {
    RestingFrame(cfg, s, step);
    var t := NextResting(cfg, s, step).value;
    if StageOf(t.pc).Resting? {
      assert RestingGap(cfg, t, g.Past(step));
    } else if t.pc == Building {
      assert MayResend(cfg, g.Past(step));
    }
  }

  lemma GapWoken(cfg: Config, s: State, step: Step, g: Gap)
    requires StageOf(s.pc) == Resting
    requires (s.pc.Rejecting? || s.pc.Awaiting? || s.pc.Jittering? || s.pc.Admitting? || s.pc.Expiring?)
    requires Counts(cfg, s) && GapInv(cfg, s, g)
    requires s.pc.Awaiting? || s.pc.Jittering?
    requires NextResting(cfg, s, step).Some?
    ensures GapInv(cfg, NextResting(cfg, s, step).value, g.Past(step))
  {
    RestingFrame(cfg, s, step);
    var t := NextResting(cfg, s, step).value;
    if StageOf(t.pc).Resting? {
      assert RestingGap(cfg, t, g.Past(step));
    }
  }

  lemma GapAdmitting(cfg: Config, s: State, step: Step, g: Gap)
    requires StageOf(s.pc) == Resting
    requires (s.pc.Rejecting? || s.pc.Awaiting? || s.pc.Jittering? || s.pc.Admitting? || s.pc.Expiring?)
    requires Counts(cfg, s) && GapInv(cfg, s, g)
    requires !s.pc.Awaiting? && !s.pc.Jittering?
    requires NextResting(cfg, s, step).Some?
    ensures GapInv(cfg, NextResting(cfg, s, step).value, g.Past(step))
  {
    RestingFrame(cfg, s, step);
    var t := NextResting(cfg, s, step).value;
    if StageOf(t.pc).Resting? {
      assert RestingGap(cfg, t, g.Past(step));
    } else if t.pc == Building {
      assert MayResend(cfg, g.Past(step));
    }
  }

  lemma GapRetryGate(cfg: Config, s: State, step: Step, g: Gap)
    requires StageOf(s.pc) == Resting
    requires (s.pc.Rejecting? || s.pc.Awaiting? || s.pc.Jittering? || s.pc.Admitting? || s.pc.Expiring?)
    requires Counts(cfg, s) && GapInv(cfg, s, g)
    requires NextResting(cfg, s, step).Some?
    ensures GapInv(cfg, NextResting(cfg, s, step).value, g.Past(step))
  {
    if s.pc.Awaiting? || s.pc.Jittering? {
      GapWoken(cfg, s, step, g);
    } else {
      GapAdmitting(cfg, s, step, g);
    }
  }

  lemma GapResting(cfg: Config, s: State, step: Step, g: Gap)
    requires StageOf(s.pc) == Resting && Counts(cfg, s) && GapInv(cfg, s, g)
    requires NextResting(cfg, s, step).Some?
    ensures GapInv(cfg, NextResting(cfg, s, step).value, g.Past(step))
  {
    if s.pc.Running? || s.pc.Telling? {
      GapReconcile(cfg, s, step, g);
    } else if s.pc.PauseChecking? || s.pc.Sleeping? || s.pc.Rechecking? {
      GapPause(cfg, s, step, g);
    } else {
      GapRetryGate(cfg, s, step, g);
    }
  }

  lemma GapEnding(cfg: Config, s: State, step: Step, g: Gap)
    requires StageOf(s.pc) == Ending && NextEnding(cfg, s, step).Some?
    ensures GapInv(cfg, NextEnding(cfg, s, step).value, g)
  {
    EndingFrame(cfg, s, step);
  }

  lemma GapStep(cfg: Config, s: State, step: Step, g: Gap)
    requires Counts(cfg, s) && GapInv(cfg, s, g) && Next(cfg, s, step).Some?
    ensures GapInv(cfg, Next(cfg, s, step).value, g.Past(step))
  {
    match StageOf(s.pc)
    case Unbuilt => GapUnbuilt(cfg, s, step, g);
    case Unsent => GapUnsent(cfg, s, step, g);
    case InFlight => GapInFlight(cfg, s, step, g);
    case Judged => GapJudged(cfg, s, step, g);
    case Resting => GapResting(cfg, s, step, g);
    case Ending => GapEnding(cfg, s, step, g.Past(step));
  }

  lemma {:induction false} GapAlways(cfg: Config, trace: seq<Step>)
    requires cfg.Normal() && Run(cfg, trace).Some?
    ensures GapInv(cfg, Run(cfg, trace).value, Since(trace))
  {
    if trace != [] {
      var before := trace[..|trace| - 1];
      var s, step := Run(cfg, before).value, trace[|trace| - 1];
      CountsAlways(cfg, before);
      GapAlways(cfg, before);
      GapStep(cfg, s, step, Since(before));
    }
  }

  /** A call that is about to send has been through all that the send takes. */
  ghost predicate SendIsDue(cfg: Config, s: State, g: Gap) {
    && s.pc == Sending && s.data.n == s.data.attempts + 1
    && if s.data.attempts == 0 then MaySend(cfg, g) else MayResend(cfg, g)
  }

  lemma SendsOnlyWhenReady(cfg: Config, s: State, step: Step)
    requires step.Sent? && Next(cfg, s, step).Some?
    ensures s.pc == Sending
  {
  }

  /** MAIN RESULT. Whatever the hooks, the gate and the server do: when an attempt after the first is
      sent, exactly this has happened since the previous send, in this order: a retryable outcome that
      was replay-safe or has reconcile hooks if unknown, a budget grant, the choice of a wait that
      honours Retry-After, the release of the old response, a completed pause ending with the gate seen
      healthy or recovered, and, after an unknown outcome, reconcile hooks that all said Continue. Before
      the first send the gate was seen healthy or recovered. */
  lemma {:induction false} WhatLiesBetweenSends(cfg: Config, trace: seq<Step>, s: State, step: Step)
    requires cfg.Normal() && Run(cfg, trace) == Some(s) && step.Sent? && Next(cfg, s, step).Some?
    ensures SendIsDue(cfg, s, Since(trace))
  {
    CountsAlways(cfg, trace);
    GapAlways(cfg, trace);
    SendsOnlyWhenReady(cfg, s, step);
  }
}
