/** The give-up hooks have their say whenever a call is given up, and at no other time. */
module GiveUps {
  import opened Base
  import opened Protocol
  import opened Counting
  import opened Story
  import opened Labels

  /** What the give-up hooks of a run have said, one after the other. */
  function Asked(trace: seq<Step>): seq<Verdict> {
    if trace == [] then [] else Answers(Asked(trace[..|trace| - 1]), trace[|trace| - 1])
  }

  function Answers(asked: seq<Verdict>, step: Step): seq<Verdict> {
    if step.Ran? && step.phase.GiveUp? then asked + step.verdicts else asked
  }

  /** All the give-up hooks there are have been asked, and none has objected. */
  predicate NoObjection(cfg: Config, asked: seq<Verdict>) {
    |asked| == cfg.giveUp && forall v :: v in asked ==> v == Continue
  }

  /** A give-up hook has stopped the call, after all before it had let it pass. */
  predicate Objection(cfg: Config, asked: seq<Verdict>, v: Verdict) {
    && asked != [] && Legal(asked, cfg.giveUp)
    && asked[|asked| - 1] == v && v != Continue
  }

  predicate StoppedByGiveUp(why: Why) {
    why.HookStop? && why.phase.GiveUp?
  }

  /** What has been asked by the time the call has decided how to end. */
  ghost predicate Consulted(cfg: Config, why: Why, oneShot: bool, asked: seq<Verdict>) {
    if GaveUp(cfg, why, oneShot) then NoObjection(cfg, asked)
    else if StoppedByGiveUp(why) then Objection(cfg, asked, why.verdict)
    else asked == []
  }

  ghost predicate AskedInv(cfg: Config, s: State, why: Why, asked: seq<Verdict>) {
    if !StageOf(s.pc).Ending? || s.pc.Running? then asked == []
    else if s.pc.Telling? && s.pc.verdict.Continue? then NoObjection(cfg, asked)
    else if s.pc.Telling? then Objection(cfg, asked, s.pc.verdict)
    else Consulted(cfg, why, s.data.plan.OneShot?, asked)
  }

  lemma AskedUnbuilt(cfg: Config, s: State, step: Step, why: Why, asked: seq<Verdict>)
    requires StageOf(s.pc) == Unbuilt && LabelInv(cfg, s, why) && AskedInv(cfg, s, why, asked)
    requires NextUnbuilt(cfg, s, step).Some?
    ensures AskedInv(cfg, NextUnbuilt(cfg, s, step).value, why.Then(cfg, step), Answers(asked, step))
  {
  }

  lemma AskedUnsent(cfg: Config, s: State, step: Step, why: Why, asked: seq<Verdict>)
    requires StageOf(s.pc) == Unsent && LabelInv(cfg, s, why) && AskedInv(cfg, s, why, asked)
    requires NextUnsent(cfg, s, step).Some?
    ensures AskedInv(cfg, NextUnsent(cfg, s, step).value, why.Then(cfg, step), Answers(asked, step))
  {
  }

  lemma AskedInFlight(cfg: Config, s: State, step: Step, why: Why, asked: seq<Verdict>)
    requires StageOf(s.pc) == InFlight && LabelInv(cfg, s, why) && AskedInv(cfg, s, why, asked)
    requires NextInFlight(cfg, s, step).Some?
    ensures AskedInv(cfg, NextInFlight(cfg, s, step).value, why.Then(cfg, step), Answers(asked, step))
  {
  }

  lemma AskedJudged(cfg: Config, s: State, step: Step, why: Why, asked: seq<Verdict>)
    requires StageOf(s.pc) == Judged && LabelInv(cfg, s, why) && AskedInv(cfg, s, why, asked)
    requires NextJudged(cfg, s, step).Some?
    ensures AskedInv(cfg, NextJudged(cfg, s, step).value, why.Then(cfg, step), Answers(asked, step))
  {
  }

  lemma AskedResting(cfg: Config, s: State, step: Step, why: Why, asked: seq<Verdict>)
    requires StageOf(s.pc) == Resting && LabelInv(cfg, s, why) && AskedInv(cfg, s, why, asked)
    requires NextResting(cfg, s, step).Some?
    ensures AskedInv(cfg, NextResting(cfg, s, step).value, why.Then(cfg, step), Answers(asked, step))
  {
  }

  lemma HooksNext(cfg: Config, s: State, step: Step)
    requires StageOf(s.pc) == Ending && s.pc.Running? && NextEnding(cfg, s, step).Some?
    ensures step.Ran? && step.phase.GiveUp? && Legal(step.verdicts, cfg.giveUp)
    ensures var v := step.verdicts[|step.verdicts| - 1];
            NextEnding(cfg, s, step).value.pc == if v.Panic? then Crashing else Telling(GiveUp, v)
  {
  }

  /** The verdicts of a whole phase: none objects, or the last one does. */
  lemma AllOrLast(cfg: Config, vs: seq<Verdict>)
    requires Legal(vs, cfg.giveUp)
    ensures if vs[|vs| - 1] == Continue then NoObjection(cfg, vs) else Objection(cfg, vs, vs[|vs| - 1])
  {
  }

  lemma AskedByState(cfg: Config, t: State, why: Why, vs: seq<Verdict>)
    requires vs != [] && t.pc == var v := vs[|vs| - 1]; if v.Panic? then Crashing else Telling(GiveUp, v)
    requires if vs[|vs| - 1] == Continue then NoObjection(cfg, vs)
             else Objection(cfg, vs, vs[|vs| - 1]) && why == HookStop(GiveUp, vs[|vs| - 1])
    ensures AskedInv(cfg, t, why, vs)
  {
  }

  lemma AskedHooks(cfg: Config, s: State, step: Step, why: Why, asked: seq<Verdict>)
    requires StageOf(s.pc) == Ending && s.pc.Running? && AskedInv(cfg, s, why, asked)
    requires NextEnding(cfg, s, step).Some?
    ensures AskedInv(cfg, NextEnding(cfg, s, step).value, why.Then(cfg, step), Answers(asked, step))
  {
    HooksNext(cfg, s, step);
    var vs := step.verdicts;
    AllOrLast(cfg, vs);
    assert Answers(asked, step) == [] + vs == vs;
    AskedByState(cfg, NextEnding(cfg, s, step).value, why.Then(cfg, step), vs);
  }

  lemma AskedTelling(cfg: Config, s: State, step: Step, why: Why, asked: seq<Verdict>)
    requires StageOf(s.pc) == Ending && s.pc.Telling? && LabelInv(cfg, s, why) && AskedInv(cfg, s, why, asked)
    requires NextEnding(cfg, s, step).Some?
    ensures AskedInv(cfg, NextEnding(cfg, s, step).value, why.Then(cfg, step), Answers(asked, step))
  {
  }

  lemma AskedClosing(cfg: Config, s: State, step: Step, why: Why, asked: seq<Verdict>)
    requires StageOf(s.pc) == Ending && !s.pc.Running? && !s.pc.Telling? && AskedInv(cfg, s, why, asked)
    requires NextEnding(cfg, s, step).Some?
    ensures AskedInv(cfg, NextEnding(cfg, s, step).value, why.Then(cfg, step), Answers(asked, step))
  {
  }

  lemma AskedEnding(cfg: Config, s: State, step: Step, why: Why, asked: seq<Verdict>)
    requires StageOf(s.pc) == Ending && LabelInv(cfg, s, why) && AskedInv(cfg, s, why, asked)
    requires NextEnding(cfg, s, step).Some?
    ensures AskedInv(cfg, NextEnding(cfg, s, step).value, why.Then(cfg, step), Answers(asked, step))
  {
    if s.pc.Running? {
      AskedHooks(cfg, s, step, why, asked);
    } else if s.pc.Telling? {
      AskedTelling(cfg, s, step, why, asked);
    } else {
      AskedClosing(cfg, s, step, why, asked);
    }
  }

  lemma {:induction false} AskedAlways(cfg: Config, trace: seq<Step>)
    requires cfg.Normal() && Run(cfg, trace).Some?
    ensures AskedInv(cfg, Run(cfg, trace).value, Told(cfg, trace), Asked(trace))
  {
    if trace != [] {
      var before := trace[..|trace| - 1];
      var s, step := Run(cfg, before).value, trace[|trace| - 1];
      AskedAlways(cfg, before);
      LabelAlways(cfg, before);
      match StageOf(s.pc)
      case Unbuilt => AskedUnbuilt(cfg, s, step, Told(cfg, before), Asked(before));
      case Unsent => AskedUnsent(cfg, s, step, Told(cfg, before), Asked(before));
      case InFlight => AskedInFlight(cfg, s, step, Told(cfg, before), Asked(before));
      case Judged => AskedJudged(cfg, s, step, Told(cfg, before), Asked(before));
      case Resting => AskedResting(cfg, s, step, Told(cfg, before), Asked(before));
      case Ending => AskedEnding(cfg, s, step, Told(cfg, before), Asked(before));
    }
  }

  lemma HaltedIsConsulted(cfg: Config, s: State, why: Why, asked: seq<Verdict>)
    requires AskedInv(cfg, s, why, asked) && s.pc.Halted?
    ensures Consulted(cfg, why, s.data.plan.OneShot?, asked)
  {
  }

  /** MAIN RESULT. In every run that has ended: if the call was given up, for whatever reason, each of the
      give-up hooks was asked once and let it pass; if one of them stopped the call, those before it had let it
      pass and none was asked after it; and a call that was not given up has asked none. */
  lemma {:induction false} GiveUpHooksAreAsked(cfg: Config, trace: seq<Step>, s: State)
    requires cfg.Normal() && Run(cfg, trace) == Some(s) && s.pc.Halted?
    ensures Consulted(cfg, Told(cfg, trace), s.data.plan.OneShot?, Asked(trace))
  {
    AskedAlways(cfg, trace);
    HaltedIsConsulted(cfg, s, Told(cfg, trace), Asked(trace));
  }
}
