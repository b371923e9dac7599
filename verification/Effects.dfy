/** The central promise: an operation that may already have been carried out is not carried out again.
    The server's side of a run is the number of its sends that were applied. */
module Effects {
  import opened Base
  import opened Protocol
  import opened Counting
  import opened Hooks

  predicate IsApplied(step: Step) {
    step.Sent? && step.applied
  }

  function Applied(trace: seq<Step>): nat {
    if trace == [] then 0 else Applied(trace[..|trace| - 1]) + (if IsApplied(trace[|trace| - 1]) then 1 else 0)
  }

  /** Whether the last send was applied. */
  function LastApplied(trace: seq<Step>): bool {
    if trace == [] then false
    else if trace[|trace| - 1].Sent? then trace[|trace| - 1].applied
    else LastApplied(trace[..|trace| - 1])
  }

  /** What has happened when step `i` is taken. */
  function Up(trace: seq<Step>, i: nat): seq<Step>
    requires i <= |trace|
  {
    trace[..i]
  }

  predicate RecordsOutcome(step: Step, o: Outcome) {
    step.Emit? && step.event.AttemptDone? && step.event.outcome == o
  }

  /** The final outcomes are sound: no attempt recorded as not applied was applied. */
  ghost predicate SoundOutcomes(trace: seq<Step>) {
    forall i {:trigger trace[i]} :: 0 <= i < |trace| && RecordsOutcome(trace[i], NotApplied) ==>
      !LastApplied(Up(trace, i))
  }

  ghost predicate HonestVerdict(v: Verdict, effects: nat) {
    exists answer :: TruthfulProbe(answer, effects) && v == Reconciler(answer, false)
  }

  /** The k-th reconcile hook is a fail-closed Reconciler with a truthful probe, asked after the effects
      of the earlier sends have settled. */
  ghost predicate Reconciling(cfg: Config, trace: seq<Step>, k: nat) {
    && k < cfg.reconcile
    && forall i {:trigger trace[i]} ::
         0 <= i < |trace| && trace[i].Ran? && trace[i].phase.Reconcile? && k < |trace[i].verdicts| ==>
         HonestVerdict(trace[i].verdicts[k], Applied(Up(trace, i)))
  }

  /** Nothing makes the call replay-safe and there are no reconcile hooks. */
  ghost predicate Unprotected(cfg: Config, trace: seq<Step>) {
    && cfg.reconcile == 0
    && forall i {:trigger trace[i]} :: 0 <= i < |trace| && RecordsOutcome(trace[i], Unknown) ==>
         !trace[i].event.replaySafe
  }

  ghost predicate OpenOutcome(cfg: Config, d: Data, effects: nat) {
    match d.outcome
    case NotApplied => effects == 0
    case Unknown => cfg.reconcile > 0
    case _ => false
  }

  /** How many effects the server may hold. Only a send of which the outcome is still open, or was
      unknown and has not been reconciled, may have left one behind while the call can still go on. */
  ghost predicate EffectInv(cfg: Config, s: State, effects: nat, last: bool) {
    && effects <= 1
    && match StageOf(s.pc)
       case Unbuilt => effects == 0
       case Unsent => effects == 0
       case InFlight => effects == if last then 1 else 0
       case Judged => s.pc.Refunding? || OpenOutcome(cfg, s.data, effects)
       case Resting =>
         if s.pc.Telling? then s.pc.verdict.Continue? ==> effects == 0
         else OpenOutcome(cfg, s.data, effects) && (s.pc.Running? ==> s.data.outcome.Unknown?)
       case Ending => true
  }

  /** The assumptions as seen by a single step. */
  ghost predicate Assumed(cfg: Config, step: Step, effects: nat, last: bool) {
    && (RecordsOutcome(step, NotApplied) ==> !last)
    && (cfg.reconcile == 0 && RecordsOutcome(step, Unknown) ==> !step.event.replaySafe)
    && (step.Ran? && step.phase.Reconcile? && step.verdicts != [] && step.verdicts[|step.verdicts| - 1].Continue? ==>
          effects == 0)
  }

  lemma EffectUnbuilt(cfg: Config, s: State, step: Step, effects: nat, last: bool)
    requires StageOf(s.pc) == Unbuilt && EffectInv(cfg, s, effects, last) && Assumed(cfg, step, effects, last)
    requires NextUnbuilt(cfg, s, step).Some?
    ensures EffectInv(cfg, NextUnbuilt(cfg, s, step).value, effects + (if IsApplied(step) then 1 else 0),
                      if step.Sent? then step.applied else last)
  {
  }

  lemma EffectUnsent(cfg: Config, s: State, step: Step, effects: nat, last: bool)
    requires StageOf(s.pc) == Unsent && EffectInv(cfg, s, effects, last) && Assumed(cfg, step, effects, last)
    requires NextUnsent(cfg, s, step).Some?
    ensures EffectInv(cfg, NextUnsent(cfg, s, step).value, effects + (if IsApplied(step) then 1 else 0),
                      if step.Sent? then step.applied else last)
  {
    UnsentFrame(cfg, s, step);
  }

  lemma EffectInFlight(cfg: Config, s: State, step: Step, effects: nat, last: bool)
    requires StageOf(s.pc) == InFlight && EffectInv(cfg, s, effects, last) && Assumed(cfg, step, effects, last)
    requires NextInFlight(cfg, s, step).Some?
    ensures EffectInv(cfg, NextInFlight(cfg, s, step).value, effects + (if IsApplied(step) then 1 else 0),
                      if step.Sent? then step.applied else last)
  {
    InFlightFrame(cfg, s, step);
  }

  lemma EffectJudged(cfg: Config, s: State, step: Step, effects: nat, last: bool)
    requires StageOf(s.pc) == Judged && EffectInv(cfg, s, effects, last) && Assumed(cfg, step, effects, last)
    requires NextJudged(cfg, s, step).Some?
    ensures EffectInv(cfg, NextJudged(cfg, s, step).value, effects + (if IsApplied(step) then 1 else 0),
                      if step.Sent? then step.applied else last)
  {
    JudgedFrame(cfg, s, step);
  }

  lemma EffectResting(cfg: Config, s: State, step: Step, effects: nat, last: bool)
    requires StageOf(s.pc) == Resting && EffectInv(cfg, s, effects, last) && Assumed(cfg, step, effects, last)
    requires NextResting(cfg, s, step).Some?
    ensures EffectInv(cfg, NextResting(cfg, s, step).value, effects + (if IsApplied(step) then 1 else 0),
                      if step.Sent? then step.applied else last)
  {
    RestingFrame(cfg, s, step);
  }

  lemma EffectEnding(cfg: Config, s: State, step: Step, effects: nat, last: bool)
    requires StageOf(s.pc) == Ending && EffectInv(cfg, s, effects, last) && Assumed(cfg, step, effects, last)
    requires NextEnding(cfg, s, step).Some?
    ensures EffectInv(cfg, NextEnding(cfg, s, step).value, effects + (if IsApplied(step) then 1 else 0),
                      if step.Sent? then step.applied else last)
  {
    EndingFrame(cfg, s, step);
  }

  lemma EffectStep(cfg: Config, s: State, step: Step, effects: nat, last: bool)
    requires EffectInv(cfg, s, effects, last) && Assumed(cfg, step, effects, last) && Next(cfg, s, step).Some?
    ensures EffectInv(cfg, Next(cfg, s, step).value, effects + (if IsApplied(step) then 1 else 0),
                      if step.Sent? then step.applied else last)
  {
    match StageOf(s.pc)
    case Unbuilt => EffectUnbuilt(cfg, s, step, effects, last);
    case Unsent => EffectUnsent(cfg, s, step, effects, last);
    case InFlight => EffectInFlight(cfg, s, step, effects, last);
    case Judged => EffectJudged(cfg, s, step, effects, last);
    case Resting => EffectResting(cfg, s, step, effects, last);
    case Ending => EffectEnding(cfg, s, step, effects, last);
  }

  lemma UpPrefix(trace: seq<Step>, i: nat)
    requires 0 < |trace| && i <= |trace| - 1
    ensures Up(trace[..|trace| - 1], i) == Up(trace, i)
  {
  }

  /** The assumptions about a run are assumptions about its beginning too. */
  lemma Shorter(cfg: Config, trace: seq<Step>, k: nat)
    requires trace != []
    ensures var before := trace[..|trace| - 1];
            && (SoundOutcomes(trace) ==> SoundOutcomes(before))
            && (Reconciling(cfg, trace, k) ==> Reconciling(cfg, before, k))
            && (Unprotected(cfg, trace) ==> Unprotected(cfg, before))
  {
    var before := trace[..|trace| - 1];
    forall i: nat | i < |before|
      ensures before[i] == trace[i] && Up(before, i) == Up(trace, i)
    {
      UpPrefix(trace, i);
    }
  }

  lemma HooksAreLegal(cfg: Config, s: State, step: Step)
    requires step.Ran? && Next(cfg, s, step).Some?
    ensures Legal(step.verdicts, cfg.Hooks(step.phase))
  {
  }

  /** Reconcile hooks that all said Continue include the Reconciler, which has seen no effect. */
  lemma LastStepAssumed(cfg: Config, trace: seq<Step>, k: nat)
    requires trace != [] && Run(cfg, trace).Some?
    requires SoundOutcomes(trace) && (Reconciling(cfg, trace, k) || Unprotected(cfg, trace))
    ensures var before := trace[..|trace| - 1];
            Assumed(cfg, trace[|trace| - 1], Applied(before), LastApplied(before))
  {
    var before, step := trace[..|trace| - 1], trace[|trace| - 1];
    assert Up(trace, |before|) == before;
    if step.Ran? && step.phase.Reconcile? {
      HooksAreLegal(cfg, Run(cfg, before).value, step);
    }
  }

  lemma {:induction false} EffectAlways(cfg: Config, trace: seq<Step>, k: nat)
    requires cfg.Normal() && Run(cfg, trace).Some?
    requires SoundOutcomes(trace) && (Reconciling(cfg, trace, k) || Unprotected(cfg, trace))
    ensures EffectInv(cfg, Run(cfg, trace).value, Applied(trace), LastApplied(trace))
  {
    if trace != [] {
      var before := trace[..|trace| - 1];
      Shorter(cfg, trace, k);
      EffectAlways(cfg, before, k);
      LastStepAssumed(cfg, trace, k);
      EffectStep(cfg, Run(cfg, before).value, trace[|trace| - 1], Applied(before), LastApplied(before));
    }
  }

  /** MAIN RESULT. With sound outcomes, and either a fail-closed Reconciler with a truthful probe or no
      protection at all, no run of a call makes the server carry the operation out twice. */
  lemma AtMostOnce(cfg: Config, trace: seq<Step>, k: nat)
    requires cfg.Normal() && Run(cfg, trace).Some?
    requires SoundOutcomes(trace) && (Reconciling(cfg, trace, k) || Unprotected(cfg, trace))
    ensures Applied(trace) <= 1
  {
    EffectAlways(cfg, trace, k);
  }

  /** The reconcile hooks end with a response. */
  predicate Finds(step: Step) {
    && step.Ran? && step.phase.Reconcile? && step.verdicts != []
    && step.verdicts[|step.verdicts| - 1].Succeed? && step.verdicts[|step.verdicts| - 1].resp.Some?
  }

  /** Whichever reconcile hook hands in a response has seen the effect: it is a Reconciler with a truthful
      probe, or as honest as one. */
  ghost predicate FindersAreHonest(trace: seq<Step>) {
    forall i {:trigger trace[i]} :: 0 <= i < |trace| && Finds(trace[i]) ==>
      HonestVerdict(trace[i].verdicts[|trace[i].verdicts| - 1], Applied(Up(trace, i)))
  }

  lemma {:induction false} StepIsLegal(cfg: Config, trace: seq<Step>, i: nat)
    requires Run(cfg, trace).Some? && i < |trace| && trace[i].Ran?
    ensures Legal(trace[i].verdicts, cfg.Hooks(trace[i].phase))
  {
    var before := trace[..|trace| - 1];
    if i < |before| {
      StepIsLegal(cfg, before, i);
    } else {
      HooksAreLegal(cfg, Run(cfg, before).value, trace[i]);
    }
  }

  /** The Reconciler is honest, so if it is the only reconcile hook nothing more has to be asked for. */
  lemma {:induction false} OnlyHookIsHonest(cfg: Config, trace: seq<Step>)
    requires Run(cfg, trace).Some? && cfg.reconcile == 1 && Reconciling(cfg, trace, 0)
    ensures FindersAreHonest(trace)
  {
    forall i | 0 <= i < |trace| && Finds(trace[i])
      ensures HonestVerdict(trace[i].verdicts[|trace[i].verdicts| - 1], Applied(Up(trace, i)))
    {
      StepIsLegal(cfg, trace, i);
    }
  }

  /** A reconcile hook that hands in a response has seen the effect. */
  ghost predicate FoundInv(s: State, effects: nat) {
    && (s.pc.Telling? && s.pc.phase.Reconcile? && s.pc.verdict.Succeed? && s.pc.verdict.resp.Some? ==> effects > 0)
    && ((s.pc.Dropping? || s.pc.Handing? || s.pc.Leaving?) && s.pc.final.result == Label.Reconciled ==> effects > 0)
    && (s.pc.Halted? && s.pc.result.Some? && s.pc.result.value.result == Label.Reconciled ==> effects > 0)
  }

  ghost predicate FoundAssumed(step: Step, effects: nat) {
    Finds(step) ==> effects > 0
  }

  lemma FoundUnbuilt(cfg: Config, s: State, step: Step, effects: nat)
    requires StageOf(s.pc) == Unbuilt && FoundInv(s, effects) && FoundAssumed(step, effects)
    requires NextUnbuilt(cfg, s, step).Some?
    ensures FoundInv(NextUnbuilt(cfg, s, step).value, effects + (if IsApplied(step) then 1 else 0))
  {
  }

  lemma FoundUnsent(cfg: Config, s: State, step: Step, effects: nat)
    requires StageOf(s.pc) == Unsent && FoundInv(s, effects) && FoundAssumed(step, effects)
    requires NextUnsent(cfg, s, step).Some?
    ensures FoundInv(NextUnsent(cfg, s, step).value, effects + (if IsApplied(step) then 1 else 0))
  {
  }

  lemma FoundInFlight(cfg: Config, s: State, step: Step, effects: nat)
    requires StageOf(s.pc) == InFlight && FoundInv(s, effects) && FoundAssumed(step, effects)
    requires NextInFlight(cfg, s, step).Some?
    ensures FoundInv(NextInFlight(cfg, s, step).value, effects + (if IsApplied(step) then 1 else 0))
  {
  }

  lemma FoundJudged(cfg: Config, s: State, step: Step, effects: nat)
    requires StageOf(s.pc) == Judged && FoundInv(s, effects) && FoundAssumed(step, effects)
    requires NextJudged(cfg, s, step).Some?
    ensures FoundInv(NextJudged(cfg, s, step).value, effects + (if IsApplied(step) then 1 else 0))
  {
  }

  lemma FoundResting(cfg: Config, s: State, step: Step, effects: nat)
    requires StageOf(s.pc) == Resting && FoundInv(s, effects) && FoundAssumed(step, effects)
    requires NextResting(cfg, s, step).Some?
    ensures FoundInv(NextResting(cfg, s, step).value, effects + (if IsApplied(step) then 1 else 0))
  {
  }

  lemma FoundEnding(cfg: Config, s: State, step: Step, effects: nat)
    requires StageOf(s.pc) == Ending && FoundInv(s, effects) && FoundAssumed(step, effects)
    requires NextEnding(cfg, s, step).Some?
    ensures FoundInv(NextEnding(cfg, s, step).value, effects + (if IsApplied(step) then 1 else 0))
  {
  }

  lemma FoundStep(cfg: Config, s: State, step: Step, effects: nat)
    requires FoundInv(s, effects) && FoundAssumed(step, effects) && Next(cfg, s, step).Some?
    ensures FoundInv(Next(cfg, s, step).value, effects + (if IsApplied(step) then 1 else 0))
  {
    match StageOf(s.pc)
    case Unbuilt => FoundUnbuilt(cfg, s, step, effects);
    case Unsent => FoundUnsent(cfg, s, step, effects);
    case InFlight => FoundInFlight(cfg, s, step, effects);
    case Judged => FoundJudged(cfg, s, step, effects);
    case Resting => FoundResting(cfg, s, step, effects);
    case Ending => FoundEnding(cfg, s, step, effects);
  }

  lemma {:induction false} FoundAlways(cfg: Config, trace: seq<Step>)
    requires Run(cfg, trace).Some? && FindersAreHonest(trace)
    ensures FoundInv(Run(cfg, trace).value, Applied(trace))
  {
    if trace != [] {
      var before, step := trace[..|trace| - 1], trace[|trace| - 1];
      forall i: nat | i < |before|
        ensures before[i] == trace[i] && Up(before, i) == Up(trace, i)
      {
        UpPrefix(trace, i);
      }
      assert Up(trace, |before|) == before;
      FoundAlways(cfg, before);
      FoundStep(cfg, Run(cfg, before).value, step, Applied(before));
    }
  }

  /** MAIN RESULT. With the Reconciler at any place among the reconcile hooks, and no other hook handing in
      a response for an effect that it has not seen, a call reported as reconciled has had its effect exactly
      once. */
  lemma {:induction false} ReconciledMeansExactlyOnce(cfg: Config, trace: seq<Step>, k: nat, f: Final)
    requires cfg.Normal() && Run(cfg, trace).Some? && Run(cfg, trace).value.pc == Halted(Some(f))
    requires SoundOutcomes(trace) && Reconciling(cfg, trace, k) && FindersAreHonest(trace)
    requires f.result == Label.Reconciled
    ensures Applied(trace) == 1
  {
    AtMostOnce(cfg, trace, k);
    FoundAlways(cfg, trace);
  }

  /** With the Reconciler as the only reconcile hook, nothing else need be known of the hooks. */
  lemma {:induction false} ReconcilerAloneSuffices(cfg: Config, trace: seq<Step>, f: Final)
    requires cfg.Normal() && Run(cfg, trace).Some? && Run(cfg, trace).value.pc == Halted(Some(f))
    requires SoundOutcomes(trace) && cfg.reconcile == 1 && Reconciling(cfg, trace, 0)
    requires f.result == Label.Reconciled
    ensures Applied(trace) == 1
  {
    OnlyHookIsHonest(cfg, trace);
    ReconciledMeansExactlyOnce(cfg, trace, 0, f);
  }

  /** Where a call goes that has asked a Reconciler: on to the next attempt if the effect was not found, to its
      end with that very response if it was, and if the probe could not tell, by the reconciler's setting. */
  function Reconciled(answer: Answer, failOpen: bool): Pc {
    match answer
    case NotFound => Building
    case Found(resp) => Leaving(Final(Some(resp), Label.Reconciled, None))
    case Inconclusive(e) => if failOpen then Building else Leaving(Final(None, HookAborted, Some(HookError(e))))
  }

  /** MAIN RESULT. A Reconciler asked alone decides the call by its probe's answer. */
  lemma {:induction false} ReconcilerDecides(cfg: Config, trace: seq<Step>, s: State, answer: Answer, failOpen: bool,
                                             edit: Edit)
    requires cfg.Normal() && Run(cfg, trace) == Some(s) && s.pc == Running(Reconcile) && cfg.reconcile == 1
    ensures var v := Reconciler(answer, failOpen);
            var asked := trace + [Ran(Reconcile, [v], edit)] + [Emit(HookDone(s.data.n, Reconcile, v))];
            Run(cfg, asked) == Some(State(Reconciled(answer, failOpen), s.data.Edited(edit)))
  {
    var v := Reconciler(answer, failOpen);
    CountsAlways(cfg, trace);
    RunSnoc(cfg, trace, Ran(Reconcile, [v], edit));
    RunSnoc(cfg, trace + [Ran(Reconcile, [v], edit)], Emit(HookDone(s.data.n, Reconcile, v)));
  }
}
