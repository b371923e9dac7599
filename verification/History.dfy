/** The history of a call is a faithful log of its attempts, and what the call returns agrees with it. */
module History {
  import opened Base
  import opened Protocol
  import opened Counting
  import opened Labels
  import opened Story

  predicate Retryable(o: Outcome) {
    o.NotApplied? || o.Unknown?
  }

  function Extended(replies: seq<Reply>, step: Step): seq<Reply> {
    if step.Sent? then replies + [step.reply] else replies
  }

  /** The replies of a run's sends, in order. */
  function Replies(trace: seq<Step>): seq<Reply> {
    if trace == [] then []
    else Extended(Replies(trace[..|trace| - 1]), trace[|trace| - 1])
  }

  /** Numbers 1, 2, ... in order, each record with the reply its own send got. */
  ghost predicate Matches(history: seq<Record>, replies: seq<Reply>) {
    && |history| <= |replies|
    && (forall i :: 0 <= i < |history| ==> history[i].n == i + 1 && history[i].reply == replies[i])
  }

  ghost predicate RetryableUpTo(history: seq<Record>, k: int) {
    forall i :: 0 <= i < k && i < |history| ==> Retryable(history[i].outcome)
  }

  /** States from which another attempt may still follow. */
  predicate MayContinue(pc: Pc) {
    !StageOf(pc).Ending? && !pc.Refunding?
  }

  ghost predicate LogInv(s: State, replies: seq<Reply>) {
    var d := s.data;
    && |replies| == d.attempts && Matches(d.history, replies)
    && (d.reply.Some? ==> 1 <= d.n <= |replies| && d.reply == Some(replies[d.n - 1]))
    && RetryableUpTo(d.history, if MayContinue(s.pc) || d.attempts < d.n then |d.history| else |d.history| - 1)
  }

  lemma LogUnbuilt(cfg: Config, s: State, step: Step, replies: seq<Reply>)
    requires StageOf(s.pc) == Unbuilt && Counts(cfg, s) && LogInv(s, replies) && NextUnbuilt(cfg, s, step).Some?
    ensures LogInv(NextUnbuilt(cfg, s, step).value, Extended(replies, step))
  {
  }

  lemma LogUnsent(cfg: Config, s: State, step: Step, replies: seq<Reply>)
    requires StageOf(s.pc) == Unsent && Counts(cfg, s) && LogInv(s, replies) && NextUnsent(cfg, s, step).Some?
    ensures LogInv(NextUnsent(cfg, s, step).value, Extended(replies, step))
  {
  }

  lemma LogInFlight(cfg: Config, s: State, step: Step, replies: seq<Reply>)
    requires StageOf(s.pc) == InFlight && Counts(cfg, s) && LogInv(s, replies) && NextInFlight(cfg, s, step).Some?
    ensures LogInv(NextInFlight(cfg, s, step).value, Extended(replies, step))
  {
    var t := NextInFlight(cfg, s, step).value;
    var logged := s.pc.Logging?;
    assert t.data.attempts == s.data.attempts && t.data.n == s.data.n && t.data.reply == s.data.reply;
    assert t.data.history == if logged then s.data.Logged().history else s.data.history;
    assert logged && MayContinue(t.pc) ==> Retryable(s.data.outcome);
  }

  lemma LogJudged(cfg: Config, s: State, step: Step, replies: seq<Reply>)
    requires StageOf(s.pc) == Judged && Counts(cfg, s) && LogInv(s, replies) && NextJudged(cfg, s, step).Some?
    ensures LogInv(NextJudged(cfg, s, step).value, Extended(replies, step))
  {
  }

  lemma LogResting(cfg: Config, s: State, step: Step, replies: seq<Reply>)
    requires StageOf(s.pc) == Resting && Counts(cfg, s) && LogInv(s, replies) && NextResting(cfg, s, step).Some?
    ensures LogInv(NextResting(cfg, s, step).value, Extended(replies, step))
  {
  }

  lemma LogGiveUp(cfg: Config, s: State, step: Step, replies: seq<Reply>)
    requires StageOf(s.pc) == Ending && Counts(cfg, s) && LogInv(s, replies) && NextEnding(cfg, s, step).Some?
    requires s.pc.Running? || s.pc.Telling?
    ensures LogInv(NextEnding(cfg, s, step).value, Extended(replies, step))
  {
    var t := NextEnding(cfg, s, step).value;
    assert t.data.history == s.data.history && t.data.attempts == s.data.attempts && t.data.n == s.data.n;
    assert t.data.reply == s.data.reply;
    assert StageOf(t.pc).Ending?;
  }

  lemma LogLeaving(cfg: Config, s: State, step: Step, replies: seq<Reply>)
    requires StageOf(s.pc) == Ending && Counts(cfg, s) && LogInv(s, replies) && NextEnding(cfg, s, step).Some?
    requires !s.pc.Running? && !s.pc.Telling?
    ensures LogInv(NextEnding(cfg, s, step).value, Extended(replies, step))
  {
    var t := NextEnding(cfg, s, step).value;
    assert t.data.history == s.data.history && t.data.attempts == s.data.attempts && t.data.n == s.data.n;
    assert t.data.reply == s.data.reply;
    assert StageOf(t.pc).Ending?;
  }

  lemma LogEnding(cfg: Config, s: State, step: Step, replies: seq<Reply>)
    requires StageOf(s.pc) == Ending && Counts(cfg, s) && LogInv(s, replies) && NextEnding(cfg, s, step).Some?
    ensures LogInv(NextEnding(cfg, s, step).value, Extended(replies, step))
  {
    if s.pc.Running? || s.pc.Telling? {
      LogGiveUp(cfg, s, step, replies);
    } else {
      LogLeaving(cfg, s, step, replies);
    }
  }

  lemma LogStep(cfg: Config, s: State, step: Step, replies: seq<Reply>)
    requires Counts(cfg, s) && LogInv(s, replies) && Next(cfg, s, step).Some?
    ensures LogInv(Next(cfg, s, step).value, Extended(replies, step))
  {
    match StageOf(s.pc)
    case Unbuilt => LogUnbuilt(cfg, s, step, replies);
    case Unsent => LogUnsent(cfg, s, step, replies);
    case InFlight => LogInFlight(cfg, s, step, replies);
    case Judged => LogJudged(cfg, s, step, replies);
    case Resting => LogResting(cfg, s, step, replies);
    case Ending => LogEnding(cfg, s, step, replies);
  }

  lemma {:induction false} LogAlways(cfg: Config, trace: seq<Step>)
    requires cfg.Normal() && Run(cfg, trace).Some?
    ensures Counts(cfg, Run(cfg, trace).value) && LogInv(Run(cfg, trace).value, Replies(trace))
  {
    CountsAlways(cfg, trace);
    if trace != [] {
      var before := trace[..|trace| - 1];
      CountsAlways(cfg, before);
      LogAlways(cfg, before);
      LogStep(cfg, Run(cfg, before).value, trace[|trace| - 1], Replies(before));
    }
  }

  /** A body that cannot be produced twice rules out a second attempt. */
  ghost predicate OnceInv(s: State) {
    s.data.plan.OneShot? ==>
      match StageOf(s.pc)
      case Unbuilt => s.data.n == 0
      case Judged => s.data.n <= 1 && s.pc.Refunding?
      case Resting => false
      case _ => s.data.n <= 1
  }

  lemma OnceDecided(cfg: Config, s: State, step: Step)
    requires StageOf(s.pc) == InFlight && s.data.plan.OneShot? && NextInFlight(cfg, s, step).Some?
    ensures var t := NextInFlight(cfg, s, step).value; StageOf(t.pc).Judged? ==> t.pc.Refunding?
  {
  }

  lemma OnceStep(cfg: Config, s: State, step: Step)
    requires Counts(cfg, s) && OnceInv(s) && Next(cfg, s, step).Some?
    ensures OnceInv(Next(cfg, s, step).value)
  {
    match StageOf(s.pc)
    case Unbuilt =>
    case Unsent => UnsentFrame(cfg, s, step);
    case InFlight =>
      InFlightFrame(cfg, s, step);
      if s.data.plan.OneShot? {
        OnceDecided(cfg, s, step);
      }
    case Judged => JudgedFrame(cfg, s, step);
    case Resting => RestingFrame(cfg, s, step);
    case Ending => EndingFrame(cfg, s, step);
  }

  lemma {:induction false} OnceAlways(cfg: Config, trace: seq<Step>)
    requires cfg.Normal() && Run(cfg, trace).Some?
    ensures OnceInv(Run(cfg, trace).value)
  {
    if trace != [] {
      var before := trace[..|trace| - 1];
      CountsAlways(cfg, before);
      OnceAlways(cfg, before);
      OnceStep(cfg, Run(cfg, before).value, trace[|trace| - 1]);
    }
  }

  /** MAIN RESULT. However a call ends, it has sent at most the configured number of attempts; its
      history numbers them 1, 2, ... with the replies they got, every entry but the last is retryable,
      and only an attempt lost to the caller's cancellation or to a panic is missing from it. */
  lemma HistoryIsFaithful(cfg: Config, trace: seq<Step>, result: Option<Final>)
    requires cfg.Normal() && Run(cfg, trace).Some? && Run(cfg, trace).value.pc == Halted(result)
    ensures var d := Run(cfg, trace).value.data;
            && |Replies(trace)| == d.attempts <= cfg.maxAttempts
            && Matches(d.history, Replies(trace))
            && RetryableUpTo(d.history, |d.history| - 1)
            && d.attempts - 1 <= |d.history| <= d.attempts
            && (result.Some? ==> (|d.history| == d.attempts - 1 <==> Lost(result.value)))
            && (d.plan.OneShot? ==> d.attempts <= 1)
  {
    LogAlways(cfg, trace);
    OnceAlways(cfg, trace);
  }

  /** What must have happened for a call to have stopped for a reason. */
  ghost predicate Justified(cfg: Config, d: Data, reason: Reason, why: Why) {
    match reason
    case MaxAttempts => d.attempts == cfg.maxAttempts && why.Classed? && Retryable(why.outcome)
    case BodyNotReplayable => d.plan.OneShot? && why.Classed? && Retryable(why.outcome)
    case UnsafeToRetry =>
      && cfg.reconcile == 0 && d.history != [] && d.history[|d.history| - 1].outcome == Unknown
      && why == Classed(d.n, Unknown, false)
    case DownstreamDown => cfg.gated && why.GateShut?
    case RetryAfterTooLong => d.Answered() && why.TooFarOff? && why.retryAfter > cfg.maxRetryAfter
    case NoBudget => why.Refused?
  }

  /** An error that carries the call's own log, and a label and a reason that are both right. */
  ghost predicate Truthful(cfg: Config, f: Final, d: Data, why: Why) {
    f.err.Some? && f.err.value.ExhaustedError? ==>
      && f.err.value.attempts == d.attempts && f.err.value.history == d.history
      && f.result == LabelFor(f.err.value.reason) && f.resp == None
      && Justified(cfg, d, f.err.value.reason, why)
  }

  /** MAIN RESULT. An error of a call that gave up carries that history, the number of attempts sent and
      a reason that has really come up in the run, and the label reported is the reason's. */
  lemma {:induction false} ErrorIsTruthful(cfg: Config, trace: seq<Step>, s: State, f: Final)
    requires cfg.Normal() && Run(cfg, trace) == Some(s) && s.pc == Halted(Some(f))
    ensures Truthful(cfg, f, s.data, Told(cfg, trace))
    ensures f.err.Some? && f.err.value.ExhaustedError? ==>
              f.err.value.attempts == |Replies(trace)| == |f.err.value.history|
  {
    LabelAlways(cfg, trace);
    LogAlways(cfg, trace);
  }

  function BodyFailure(err: int): Final {
    Final(None, BodyFailed, Some(BodyError(err)))
  }

  /** A body that could not be prepared or buffered ended the call where it was prepared. */
  ghost predicate BrokenInv(s: State, trace: seq<Step>) {
    forall i :: 0 <= i < |trace| && trace[i].Prepared? && trace[i].plan.Broken? ==>
      && s.data.attempts == 0
      && (s.pc == Leaving(BodyFailure(trace[i].plan.err)) || s.pc == Halted(Some(BodyFailure(trace[i].plan.err))))
  }

  lemma EndsThere(cfg: Config, s: State, step: Step, f: Final)
    requires (s.pc == Leaving(f) || s.pc == Halted(Some(f))) && Next(cfg, s, step).Some?
    ensures Next(cfg, s, step).value == State(Halted(Some(f)), s.data) && !step.Prepared?
  {
  }

  lemma PreparesOnlyAtFirst(cfg: Config, s: State, step: Step)
    requires step.Prepared? && Next(cfg, s, step).Some?
    ensures s.pc == Preparing
  {
  }

  lemma Preparation(cfg: Config, s: State, step: Step)
    requires Counts(cfg, s) && step.Prepared? && Next(cfg, s, step).Some?
    ensures var t := Next(cfg, s, step).value;
            && s.pc == Preparing && t.data.attempts == 0
            && (step.plan.Broken? ==> t.pc == Leaving(BodyFailure(step.plan.err)))
  {
    PreparesOnlyAtFirst(cfg, s, step);
  }

  lemma {:induction false} BrokenAlways(cfg: Config, trace: seq<Step>)
    requires cfg.Normal() && Run(cfg, trace).Some?
    ensures BrokenInv(Run(cfg, trace).value, trace)
  {
    if trace != [] {
      var before, step := trace[..|trace| - 1], trace[|trace| - 1];
      var s := Run(cfg, before).value;
      BrokenAlways(cfg, before);
      CountsAlways(cfg, before);
      if step.Prepared? {
        Preparation(cfg, s, step);
      }
      forall i | 0 <= i < |trace| && trace[i].Prepared? && trace[i].plan.Broken?
        ensures var t, f := Run(cfg, trace).value, BodyFailure(trace[i].plan.err);
                t.data.attempts == 0 && (t.pc == Leaving(f) || t.pc == Halted(Some(f)))
      {
        if i < |before| {
          assert before[i] == trace[i];
          EndsThere(cfg, s, step, BodyFailure(trace[i].plan.err));
        }
      }
    }
  }

  /** MAIN RESULT. A call whose body cannot be prepared, because it is too large to be buffered or cannot be
      read, sends nothing and can only end with that very error. */
  lemma {:induction false} BrokenBodySendsNothing(cfg: Config, trace: seq<Step>, s: State, i: nat)
    requires cfg.Normal() && Run(cfg, trace) == Some(s)
    requires i < |trace| && trace[i].Prepared? && trace[i].plan.Broken?
    ensures Replies(trace) == []
    ensures s.pc == Leaving(BodyFailure(trace[i].plan.err)) || s.pc == Halted(Some(BodyFailure(trace[i].plan.err)))
  {
    BrokenAlways(cfg, trace);
    LogAlways(cfg, trace);
  }
}
