/** What must lie before a send and between two sends: the milestones of a run since its last send. */
module Gaps {
  import opened Base
  import opened Protocol

  /** The milestones between two sends. */
  datatype Mark =
    | Recorded(outcome: Outcome, safe: bool)
    | Granted | Denied
    | Chose(backoff: int, retryAfter: Option<int>)
    | Announced(delay: int)
    | Freed
    | Saw(unhealthy: bool)
    | Rested(asked: int)
    | Woken
    | Cut
    | Cleared
    | Objected

  function MarkOf(step: Step): Option<Mark> {
    match step
    case Emit(e) =>
      if e.AttemptDone? then Some(Recorded(e.outcome, e.replaySafe))
      else if e.Wait? then Some(Announced(e.delay))
      else None
    case Budgeted(granted) => Some(if granted then Granted else Denied)
    case Chosen(b, ra) => Some(Chose(b, ra))
    case Released(_) => Some(Freed)
    case Observed(u) => Some(Saw(u))
    case Slept(asked, _, canceled) => Some(if canceled then Cut else Rested(asked))
    case Awaited(_, _, waking) => Some(if waking.Recovered? then Woken else Cut)
    case Ran(phase, verdicts, _) =>
      if !phase.Reconcile? then None
      else Some(if verdicts != [] && verdicts[|verdicts| - 1] == Continue then Cleared else Objected)
    case _ => None
  }

  /** The milestones since the last send in their order, cut in three: up to the release of the previous
      response, from there to the reconcile hooks, and from those on. Before the first send nothing is
      released, and all milestones are in the first part. */
  datatype Gap = Gap(decision: seq<Mark>, pause: seq<Mark>, checks: seq<Mark>)
  {
    predicate Released() {
      decision != [] && decision[|decision| - 1] == Freed
    }

    function Add(m: Mark): Gap {
      if checks != [] || m == Cleared || m == Objected then this.(checks := checks + [m])
      else if Released() then this.(pause := pause + [m])
      else this.(decision := decision + [m])
    }

    function Past(step: Step): Gap {
      if step.Sent? then Gap([], [], [])
      else match MarkOf(step) case Some(m) => Add(m) case None => this
    }
  }

  function Since(trace: seq<Step>): Gap {
    if trace == [] then Gap([], [], []) else Since(trace[..|trace| - 1]).Past(trace[|trace| - 1])
  }

  /** From position `b` on, `w` is a completed wait for recovery, with the spreading of released calls. */
  ghost predicate Recovery(cfg: Config, w: seq<Mark>, b: nat) {
    && |w| == (if cfg.releaseJitter > 0 then b + 2 else b + 1)
    && w[b] == Woken
    && (cfg.releaseJitter > 0 ==> w[b + 1].Rested? && 0 <= w[b + 1].asked <= cfg.releaseJitter)
  }

  /** The gate was seen unhealthy right away, or after the backoff had been slept. */
  predicate SeenDown(delay: int, w: seq<Mark>, b: nat) {
    || (b == 1 <= |w| && w[0] == Saw(true))
    || (b == 3 <= |w| && w[0] == Saw(false) && w[1] == Rested(delay) && w[2] == Saw(true))
  }

  /** A completed pause of the announced length after which the gate was healthy, or the wait for
      recovery that took its place. */
  ghost predicate Paused(cfg: Config, delay: int, w: seq<Mark>) {
    if !cfg.gated then w == [Rested(delay)]
    else
      || w == [Saw(false), Rested(delay), Saw(false)]
      || (SeenDown(delay, w, 1) && Recovery(cfg, w, 1))
      || (SeenDown(delay, w, 3) && Recovery(cfg, w, 3))
  }

  /** A retryable outcome that may be repeated, and a budget grant. */
  ghost predicate Allowed(cfg: Config, w: seq<Mark>) {
    && |w| >= 2 && w[0].Recorded? && w[1] == Granted
    && (w[0].outcome.NotApplied? || w[0].outcome.Unknown?)
    && (w[0].outcome.Unknown? ==> w[0].safe || cfg.reconcile > 0)
  }

  /** The wait is the backoff, or the server's Retry-After if that is longer and not too long. */
  predicate WaitOf(cfg: Config, m: Mark, delay: int) {
    && m.Chose?
    && match m.retryAfter
       case Some(ra) => ra <= cfg.maxRetryAfter && delay == Max(ra, m.backoff)
       case None => delay == m.backoff
  }

  /** The whole decision: allowed, granted, the wait chosen and announced, the old response released. */
  ghost predicate Permitted(cfg: Config, w: seq<Mark>) {
    |w| == 5 && Allowed(cfg, w) && w[3].Announced? && WaitOf(cfg, w[2], w[3].delay) && w[4] == Freed
  }

  /** All that lies between two sends of a call, in order. */
  ghost predicate MayResend(cfg: Config, g: Gap) {
    && Permitted(cfg, g.decision)
    && Paused(cfg, g.decision[3].delay, g.pause)
    && g.checks == if g.decision[0].outcome.Unknown? && cfg.reconcile > 0 then [Cleared] else []
  }

  /** All that lies before the first send. */
  ghost predicate MaySend(cfg: Config, g: Gap) {
    && g.pause == [] && g.checks == []
    && if !cfg.gated then g.decision == []
       else g.decision == [Saw(false)] || (SeenDown(0, g.decision, 1) && Recovery(cfg, g.decision, 1))
  }

  /** Inside a wait for recovery that began at position `b`. */
  ghost predicate InGate(cfg: Config, pc: Pc, w: seq<Mark>, b: nat) {
    && cfg.gated
    && if pc.Jittering? then |w| == b + 1 && w[b] == Woken && cfg.releaseJitter > 0
       else if pc.Admitting? then Recovery(cfg, w, b)
       else pc.Expiring? || |w| == b
  }

  ghost predicate FirstGap(cfg: Config, pc: Pc, g: Gap) {
    if pc.StartChecking? then g == Gap([], [], []) && cfg.gated
    else if pc.Running? || pc.Telling? || pc.Sending? then MaySend(cfg, g)
    else g.pause == [] && g.checks == [] && SeenDown(0, g.decision, 1) && InGate(cfg, pc, g.decision, 1)
  }

  ghost predicate JudgedGap(cfg: Config, s: State, g: Gap) {
    var d := s.data;
    var w := g.decision;
    && g.pause == [] && g.checks == []
    && (s.pc.Refunding? || (w != [] && w[0] == Recorded(d.outcome, d.ReplaySafe())))
    && (s.pc.Spending? ==> |w| == 1 && Allowed(cfg, w + [Granted]))
    && (s.pc.Choosing? ==> |w| == 2 && Allowed(cfg, w))
    && (s.pc.Announcing? ==> |w| == 3 && Allowed(cfg, w) && WaitOf(cfg, w[2], s.pc.delay))
    && (s.pc.Draining? ==>
          |w| == 4 && Allowed(cfg, w) && WaitOf(cfg, w[2], s.pc.delay) && w[3] == Announced(s.pc.delay))
  }

  ghost predicate RestingGap(cfg: Config, s: State, g: Gap) {
    var w := g.pause;
    && Permitted(cfg, g.decision)
    && var delay := g.decision[3].delay;
    && (if s.pc.Telling? then true else g.checks == [] && s.data.outcome == g.decision[0].outcome)
    && if s.pc.PauseChecking? then cfg.gated && w == [] && s.pc.delay == delay
       else if s.pc.Sleeping? then w == (if cfg.gated then [Saw(false)] else []) && s.pc.delay == delay
       else if s.pc.Rechecking? then cfg.gated && w == [Saw(false), Rested(delay)]
       else if s.pc.Running? then s.data.outcome.Unknown? && cfg.reconcile > 0 && Paused(cfg, delay, w)
       else if s.pc.Telling? then s.pc.verdict.Continue? ==> MayResend(cfg, g)
       else
         || (SeenDown(delay, w, 1) && InGate(cfg, s.pc, w, 1))
         || (SeenDown(delay, w, 3) && InGate(cfg, s.pc, w, 3))
  }

  ghost predicate GapInv(cfg: Config, s: State, g: Gap) {
    match StageOf(s.pc)
    case Unbuilt => if s.data.n == 0 then g == Gap([], [], []) else MayResend(cfg, g)
    case Unsent =>
      if s.data.n == 1 then FirstGap(cfg, s.pc, g)
      else MayResend(cfg, g) && (s.pc.Running? || s.pc.Telling? || s.pc.Sending?)
    case InFlight => g == Gap([], [], [])
    case Judged => JudgedGap(cfg, s, g)
    case Resting => RestingGap(cfg, s, g)
    case Ending => true
  }
}
