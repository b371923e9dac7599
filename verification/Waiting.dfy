/** How long the engine can keep a caller waiting. */
module Waiting {
  import opened Protocol
  import opened Counting

  function Took(step: Step): int {
    match step
    case Awaited(_, took, _) => took
    case Slept(_, took, _) => took
    case _ => 0
  }

  /** The time spent in the engine's own waits: backoff, gate waits and the spreading of released calls. */
  function Waited(trace: seq<Step>): int {
    if trace == [] then 0 else Waited(trace[..|trace| - 1]) + Took(trace[|trace| - 1])
  }

  /** The backoff function never asks for more than `cap`. */
  predicate BackoffCapped(trace: seq<Step>, cap: int) {
    forall i {:trigger trace[i]} :: 0 <= i < |trace| && trace[i].Chosen? ==> trace[i].backoff <= cap
  }

  /** The longest single delay: the backoff's cap, or the longest Retry-After that is honoured. */
  function LongestDelay(cfg: Config, cap: int): int {
    Max(0, Max(cap, cfg.maxRetryAfter))
  }

  function StartBound(cfg: Config): int {
    if cfg.gated then cfg.startWait + cfg.releaseJitter else 0
  }

  function GapBound(cfg: Config, cap: int): int {
    LongestDelay(cfg, cap) + if cfg.gated then cfg.retryWait + cfg.releaseJitter else 0
  }

  /** What may have been waited for once `k` gaps between attempts are over. */
  function After(cfg: Config, cap: int, k: int): int {
    StartBound(cfg) + k * GapBound(cfg, cap)
  }

  lemma OneMore(cfg: Config, cap: int, k: int)
    ensures After(cfg, cap, k + 1) == After(cfg, cap, k) + GapBound(cfg, cap)
  {
  }

  lemma MoreIsLonger(cfg: Config, cap: int, j: int, k: int)
    requires cfg.Normal() && j <= k
    ensures After(cfg, cap, j) <= After(cfg, cap, k)
  {
    assert j * GapBound(cfg, cap) <= k * GapBound(cfg, cap);
  }

  ghost predicate WaitInv(cfg: Config, s: State, cap: int, waited: int) {
    var n := s.data.n;
    var longest := LongestDelay(cfg, cap);
    match StageOf(s.pc)
    case Unbuilt => waited <= if n == 0 then 0 else After(cfg, cap, n)
    case Unsent =>
      if s.pc.Running? || s.pc.Telling? || s.pc.Sending? then waited <= After(cfg, cap, n - 1)
      else
        && cfg.gated && n == 1
        && (if s.pc.Jittering? || s.pc.Expiring? then waited <= cfg.startWait
            else if s.pc.Admitting? then waited <= cfg.startWait + cfg.releaseJitter
            else waited <= 0)
    case InFlight => waited <= After(cfg, cap, n - 1)
    case Judged =>
      && waited <= After(cfg, cap, n - 1)
      && (s.pc.Announcing? || s.pc.Draining? ==> s.pc.delay <= longest)
    case Resting =>
      if s.pc.PauseChecking? then s.pc.delay <= longest && waited <= After(cfg, cap, n - 1) && cfg.gated
      else if s.pc.Sleeping? then s.pc.delay <= longest && waited <= After(cfg, cap, n - 1)
      else if s.pc.Jittering? then cfg.gated && waited <= After(cfg, cap, n - 1) + longest + cfg.retryWait
      else if s.pc.Rejecting? || s.pc.Awaiting? || s.pc.Rechecking? then
        cfg.gated && waited <= After(cfg, cap, n - 1) + longest
      else waited <= After(cfg, cap, n)
    case Ending => waited <= After(cfg, cap, cfg.maxAttempts - 1)
  }

  /** However far the call has come, there is room left below the overall bound. */
  lemma Room(cfg: Config, s: State, cap: int)
    requires cfg.Normal() && Counts(cfg, s)
    ensures 0 <= StartBound(cfg) <= After(cfg, cap, cfg.maxAttempts - 1) && 0 <= GapBound(cfg, cap)
    ensures 1 <= s.data.n ==> After(cfg, cap, s.data.n) == After(cfg, cap, s.data.n - 1) + GapBound(cfg, cap)
    ensures 1 <= s.data.n ==> After(cfg, cap, s.data.n - 1) <= After(cfg, cap, cfg.maxAttempts - 1)
    ensures s.data.n < cfg.maxAttempts ==> After(cfg, cap, s.data.n) <= After(cfg, cap, cfg.maxAttempts - 1)
    ensures After(cfg, cap, 0) == StartBound(cfg)
  {
    OneMore(cfg, cap, s.data.n - 1);
    MoreIsLonger(cfg, cap, 0, cfg.maxAttempts - 1);
    MoreIsLonger(cfg, cap, s.data.n - 1, cfg.maxAttempts - 1);
    if s.data.n < cfg.maxAttempts {
      MoreIsLonger(cfg, cap, s.data.n, cfg.maxAttempts - 1);
    }
  }

  lemma WaitUnbuilt(cfg: Config, s: State, step: Step, cap: int, waited: int)
    requires cfg.Normal() && StageOf(s.pc) == Unbuilt && Counts(cfg, s) && WaitInv(cfg, s, cap, waited)
    requires NextUnbuilt(cfg, s, step).Some? && (step.Chosen? ==> step.backoff <= cap)
    ensures WaitInv(cfg, NextUnbuilt(cfg, s, step).value, cap, waited + Took(step))
  {
    Room(cfg, s, cap);
  }

  lemma WaitStartGate(cfg: Config, s: State, step: Step, cap: int, waited: int)
    requires cfg.Normal() && StageOf(s.pc) == Unsent && Counts(cfg, s) && WaitInv(cfg, s, cap, waited)
    requires s.pc.Rejecting? || s.pc.Awaiting? || s.pc.Jittering? || s.pc.Admitting? || s.pc.Expiring?
    requires NextUnsent(cfg, s, step).Some? && (step.Chosen? ==> step.backoff <= cap)
    ensures WaitInv(cfg, NextUnsent(cfg, s, step).value, cap, waited + Took(step))
  {
    UnsentFrame(cfg, s, step);
    Room(cfg, s, cap);
  }

  lemma WaitStarting(cfg: Config, s: State, step: Step, cap: int, waited: int)
    requires cfg.Normal() && StageOf(s.pc) == Unsent && Counts(cfg, s) && WaitInv(cfg, s, cap, waited)
    requires !(s.pc.Rejecting? || s.pc.Awaiting? || s.pc.Jittering? || s.pc.Admitting? || s.pc.Expiring?)
    requires NextUnsent(cfg, s, step).Some? && (step.Chosen? ==> step.backoff <= cap)
    ensures WaitInv(cfg, NextUnsent(cfg, s, step).value, cap, waited + Took(step))
  {
    UnsentFrame(cfg, s, step);
    Room(cfg, s, cap);
  }

  lemma WaitUnsent(cfg: Config, s: State, step: Step, cap: int, waited: int)
    requires cfg.Normal() && StageOf(s.pc) == Unsent && Counts(cfg, s) && WaitInv(cfg, s, cap, waited)
    requires NextUnsent(cfg, s, step).Some? && (step.Chosen? ==> step.backoff <= cap)
    ensures WaitInv(cfg, NextUnsent(cfg, s, step).value, cap, waited + Took(step))
  {
    if s.pc.Rejecting? || s.pc.Awaiting? || s.pc.Jittering? || s.pc.Admitting? || s.pc.Expiring? {
      WaitStartGate(cfg, s, step, cap, waited);
    } else {
      WaitStarting(cfg, s, step, cap, waited);
    }
  }

  lemma WaitInFlight(cfg: Config, s: State, step: Step, cap: int, waited: int)
    requires cfg.Normal() && StageOf(s.pc) == InFlight && Counts(cfg, s) && WaitInv(cfg, s, cap, waited)
    requires NextInFlight(cfg, s, step).Some? && (step.Chosen? ==> step.backoff <= cap)
    ensures WaitInv(cfg, NextInFlight(cfg, s, step).value, cap, waited + Took(step))
  {
    InFlightFrame(cfg, s, step);
    Room(cfg, s, cap);
  }

  lemma WaitJudged(cfg: Config, s: State, step: Step, cap: int, waited: int)
    requires cfg.Normal() && StageOf(s.pc) == Judged && Counts(cfg, s) && WaitInv(cfg, s, cap, waited)
    requires NextJudged(cfg, s, step).Some? && (step.Chosen? ==> step.backoff <= cap)
    ensures WaitInv(cfg, NextJudged(cfg, s, step).value, cap, waited + Took(step))
  {
    JudgedFrame(cfg, s, step);
    Room(cfg, s, cap);
  }

  lemma WaitRetryGate(cfg: Config, s: State, step: Step, cap: int, waited: int)
    requires cfg.Normal() && StageOf(s.pc) == Resting && Counts(cfg, s) && WaitInv(cfg, s, cap, waited)
    requires s.pc.Rejecting? || s.pc.Awaiting? || s.pc.Jittering? || s.pc.Admitting? || s.pc.Expiring?
    requires NextResting(cfg, s, step).Some? && (step.Chosen? ==> step.backoff <= cap)
    ensures WaitInv(cfg, NextResting(cfg, s, step).value, cap, waited + Took(step))
  {
    RestingFrame(cfg, s, step);
    Room(cfg, s, cap);
  }

  lemma WaitSleeping(cfg: Config, s: State, step: Step, cap: int, waited: int)
    requires cfg.Normal() && StageOf(s.pc) == Resting && Counts(cfg, s) && WaitInv(cfg, s, cap, waited)
    requires !(s.pc.Rejecting? || s.pc.Awaiting? || s.pc.Jittering? || s.pc.Admitting? || s.pc.Expiring?)
    requires NextResting(cfg, s, step).Some? && (step.Chosen? ==> step.backoff <= cap)
    ensures WaitInv(cfg, NextResting(cfg, s, step).value, cap, waited + Took(step))
  {
    RestingFrame(cfg, s, step);
    Room(cfg, s, cap);
  }

  lemma WaitResting(cfg: Config, s: State, step: Step, cap: int, waited: int)
    requires cfg.Normal() && StageOf(s.pc) == Resting && Counts(cfg, s) && WaitInv(cfg, s, cap, waited)
    requires NextResting(cfg, s, step).Some? && (step.Chosen? ==> step.backoff <= cap)
    ensures WaitInv(cfg, NextResting(cfg, s, step).value, cap, waited + Took(step))
  {
    if s.pc.Rejecting? || s.pc.Awaiting? || s.pc.Jittering? || s.pc.Admitting? || s.pc.Expiring? {
      WaitRetryGate(cfg, s, step, cap, waited);
    } else {
      WaitSleeping(cfg, s, step, cap, waited);
    }
  }

  lemma WaitEnding(cfg: Config, s: State, step: Step, cap: int, waited: int)
    requires cfg.Normal() && StageOf(s.pc) == Ending && Counts(cfg, s) && WaitInv(cfg, s, cap, waited)
    requires NextEnding(cfg, s, step).Some? && (step.Chosen? ==> step.backoff <= cap)
    ensures WaitInv(cfg, NextEnding(cfg, s, step).value, cap, waited + Took(step))
  {
    EndingFrame(cfg, s, step);
    Room(cfg, s, cap);
  }

  lemma WaitStep(cfg: Config, s: State, step: Step, cap: int, waited: int)
    requires cfg.Normal() && Counts(cfg, s) && WaitInv(cfg, s, cap, waited) && Next(cfg, s, step).Some?
    requires step.Chosen? ==> step.backoff <= cap
    ensures WaitInv(cfg, Next(cfg, s, step).value, cap, waited + Took(step))
  {
    match StageOf(s.pc)
    case Unbuilt => WaitUnbuilt(cfg, s, step, cap, waited);
    case Unsent => WaitUnsent(cfg, s, step, cap, waited);
    case InFlight => WaitInFlight(cfg, s, step, cap, waited);
    case Judged => WaitJudged(cfg, s, step, cap, waited);
    case Resting => WaitResting(cfg, s, step, cap, waited);
    case Ending => WaitEnding(cfg, s, step, cap, waited);
  }

  lemma {:induction false} WaitAlways(cfg: Config, trace: seq<Step>, cap: int)
    requires cfg.Normal() && Run(cfg, trace).Some? && BackoffCapped(trace, cap)
    ensures WaitInv(cfg, Run(cfg, trace).value, cap, Waited(trace))
  {
    if trace != [] {
      var before, step := trace[..|trace| - 1], trace[|trace| - 1];
      assert forall i :: 0 <= i < |before| ==> before[i] == trace[i];
      CountsAlways(cfg, before);
      WaitAlways(cfg, before, cap);
      WaitStep(cfg, Run(cfg, before).value, step, cap, Waited(before));
    }
  }

  lemma BoundAnywhere(cfg: Config, s: State, cap: int, waited: int)
    requires cfg.Normal() && Counts(cfg, s) && WaitInv(cfg, s, cap, waited)
    ensures waited <= After(cfg, cap, cfg.maxAttempts - 1)
  {
    Room(cfg, s, cap);
  }

  /** MAIN RESULT. All the waits of a call together are bounded: at the start one wait for recovery and
      the release jitter, and for every further attempt the longest delay, one more wait for recovery and
      the jitter again. Without a gate only the delays remain. */
  lemma WaitingIsBounded(cfg: Config, trace: seq<Step>, cap: int)
    requires cfg.Normal() && Run(cfg, trace).Some? && BackoffCapped(trace, cap)
    ensures Waited(trace) <= StartBound(cfg) + (cfg.maxAttempts - 1) * GapBound(cfg, cap)
  {
    CountsAlways(cfg, trace);
    WaitAlways(cfg, trace, cap);
    BoundAnywhere(cfg, Run(cfg, trace).value, cap, Waited(trace));
  }
}
