/** How far a call has come: in every state it can be in, how many attempts were built, sent and
    recorded, and whether the current one still holds its response. */
module Counting {
  import opened Base
  import opened Protocol

  /** The attempts that a call ending with `f` has recorded. */
  function Recorded(attempts: nat, f: Final): int {
    if Lost(f) then attempts - 1 else attempts
  }

  /** The current attempt's own response. */
  predicate OwnOpen(d: Data, f: Final) {
    !Lost(f) && f.err == None && d.Answered() && f.resp == Some(Received(d.n))
  }

  ghost predicate Counts(cfg: Config, s: State) {
    var d := s.data;
    var h := |d.history|;
    && d.n <= cfg.maxAttempts
    && (d.live || d.reply.Some? ==> 1 <= d.n)
    && (match StageOf(s.pc)
        case Unbuilt => d.attempts == d.n == h < cfg.maxAttempts && !d.live && (s.pc.Building? || d.n == 0)
        case Unsent => d.attempts == d.n - 1 == h && d.live && d.reply == None
        case InFlight => d.attempts == d.n == h + 1 && d.live && d.reply.Some?
        case Judged => d.attempts == d.n == h && d.live && d.reply.Some? && (!s.pc.Refunding? ==> d.n < cfg.maxAttempts)
        case Resting => 1 <= d.attempts == d.n == h < cfg.maxAttempts && !d.live && d.reply.Some?
        case Ending =>
          && d.n - 1 <= d.attempts <= d.n && h <= d.attempts <= h + 1
          && (d.reply.Some? ==> d.attempts == d.n >= 1)
          && (s.pc.Running? || s.pc.Telling? ==> h == d.attempts && d.reason.Some?)
          && (s.pc.Telling? ==> !s.pc.verdict.Panic?)
          && (s.pc.Dropping? ==> d.live && h == Recorded(d.attempts, s.pc.final))
          && (s.pc.Handing? ==> d.live && h == d.attempts && OwnOpen(d, s.pc.final))
          && (s.pc.Leaving? ==> !d.live && h == Recorded(d.attempts, s.pc.final))
          && (s.pc.Halted? && s.pc.result.Some? ==> !d.live && h == Recorded(d.attempts, s.pc.result.value)))
  }

  /** The result of a call whose caller gave up while an attempt was under way. */
  predicate Lost(f: Final) {
    f.result == Canceled && f.err.Some? && f.err.value.SendError? && f.resp == None
  }

  /** What no step of a stage touches. */
  predicate Untouched(d: Data, d': Data) {
    d'.n == d.n && d'.attempts == d.attempts && d'.history == d.history && d'.reply == d.reply && d'.plan == d.plan
  }

  lemma EndingFrame(cfg: Config, s: State, step: Step)
    requires StageOf(s.pc) == Ending && NextEnding(cfg, s, step).Some?
    ensures var t := NextEnding(cfg, s, step).value;
            Untouched(s.data, t.data) && StageOf(t.pc).Ending? && t.data.reason == s.data.reason
  {
  }

  lemma RestingFrame(cfg: Config, s: State, step: Step)
    requires StageOf(s.pc) == Resting && NextResting(cfg, s, step).Some?
    ensures var t := NextResting(cfg, s, step).value;
            Untouched(s.data, t.data) && t.data.live == s.data.live
            && (StageOf(t.pc).Resting? || StageOf(t.pc).Ending? || t.pc == Building)
  {
  }

  lemma JudgedFrame(cfg: Config, s: State, step: Step)
    requires StageOf(s.pc) == Judged && NextJudged(cfg, s, step).Some?
    ensures var t := NextJudged(cfg, s, step).value;
            Untouched(s.data, t.data) && t.data.live == (s.data.live && !s.pc.Draining?)
            && (StageOf(t.pc) == (if s.pc.Draining? then Resting else Judged) || StageOf(t.pc).Ending?)
  {
  }

  lemma InFlightFrame(cfg: Config, s: State, step: Step)
    requires StageOf(s.pc) == InFlight && NextInFlight(cfg, s, step).Some?
    ensures var t := NextInFlight(cfg, s, step).value;
            && t.data.n == s.data.n && t.data.attempts == s.data.attempts && t.data.reply == s.data.reply
            && t.data.live == s.data.live && t.data.plan == s.data.plan
            && t.data.history ==
                 (if s.pc.Logging? && s.data.reply.Some? then s.data.Logged().history else s.data.history)
            && (StageOf(t.pc) == (if s.pc.Logging? then Judged else InFlight) || StageOf(t.pc).Ending?)
  {
  }

  lemma UnsentFrame(cfg: Config, s: State, step: Step)
    requires StageOf(s.pc) == Unsent && NextUnsent(cfg, s, step).Some?
    ensures var t := NextUnsent(cfg, s, step).value;
            && t.data.n == s.data.n && t.data.history == s.data.history
            && t.data.live == s.data.live && t.data.plan == s.data.plan
            && (s.pc == Sending ==>
                  && t.data.attempts == s.data.attempts + 1 && t.data.reply == Some(step.reply)
                  && StageOf(t.pc).InFlight?)
            && (s.pc != Sending ==> t.data.attempts == s.data.attempts && t.data.reply == s.data.reply && !step.Sent?
                                    && (StageOf(t.pc).Unsent? || StageOf(t.pc).Ending?))
  {
  }

  lemma UnbuiltStep(cfg: Config, s: State, step: Step)
    requires StageOf(s.pc) == Unbuilt && Counts(cfg, s) && NextUnbuilt(cfg, s, step).Some?
    ensures Counts(cfg, NextUnbuilt(cfg, s, step).value)
  {
  }

  lemma UnsentStep(cfg: Config, s: State, step: Step)
    requires StageOf(s.pc) == Unsent && Counts(cfg, s) && NextUnsent(cfg, s, step).Some?
    ensures Counts(cfg, NextUnsent(cfg, s, step).value)
  {
    UnsentFrame(cfg, s, step);
  }

  lemma InFlightStep(cfg: Config, s: State, step: Step)
    requires StageOf(s.pc) == InFlight && Counts(cfg, s) && NextInFlight(cfg, s, step).Some?
    ensures Counts(cfg, NextInFlight(cfg, s, step).value)
  {
    InFlightFrame(cfg, s, step);
  }

  lemma JudgedStep(cfg: Config, s: State, step: Step)
    requires StageOf(s.pc) == Judged && Counts(cfg, s) && NextJudged(cfg, s, step).Some?
    ensures Counts(cfg, NextJudged(cfg, s, step).value)
  {
    JudgedFrame(cfg, s, step);
  }

  lemma RestingStep(cfg: Config, s: State, step: Step)
    requires StageOf(s.pc) == Resting && Counts(cfg, s) && NextResting(cfg, s, step).Some?
    ensures Counts(cfg, NextResting(cfg, s, step).value)
  {
    RestingFrame(cfg, s, step);
  }

  lemma EndingStep(cfg: Config, s: State, step: Step)
    requires StageOf(s.pc) == Ending && Counts(cfg, s) && NextEnding(cfg, s, step).Some?
    ensures Counts(cfg, NextEnding(cfg, s, step).value)
  {
    EndingFrame(cfg, s, step);
  }

  lemma CountsStep(cfg: Config, s: State, step: Step)
    requires Counts(cfg, s) && Next(cfg, s, step).Some?
    ensures Counts(cfg, Next(cfg, s, step).value)
  {
    match StageOf(s.pc)
    case Unbuilt => UnbuiltStep(cfg, s, step);
    case Unsent => UnsentStep(cfg, s, step);
    case InFlight => InFlightStep(cfg, s, step);
    case Judged => JudgedStep(cfg, s, step);
    case Resting => RestingStep(cfg, s, step);
    case Ending => EndingStep(cfg, s, step);
  }

  lemma {:induction false} CountsAlways(cfg: Config, trace: seq<Step>)
    requires cfg.Normal() && Run(cfg, trace).Some?
    ensures Counts(cfg, Run(cfg, trace).value)
  {
    if trace != [] {
      var before := trace[..|trace| - 1];
      CountsAlways(cfg, before);
      CountsStep(cfg, Run(cfg, before).value, trace[|trace| - 1]);
    }
  }
}
