/** Who owns the response and the context of each attempt: the ledger of a run's disposals. */
module Ownership {
  import opened Base
  import opened Protocol
  import opened Counting
  import opened Labels
  import opened Story

  /** An attempt's response and context were released by the engine, or went to the caller. */
  datatype Disposal = Freed(n: nat) | Handed(n: nat)

  function Entered(ledger: seq<Disposal>, step: Step): seq<Disposal> {
    if step.Released? then ledger + [Freed(step.n)]
    else if step.Delivered? then ledger + [Handed(step.n)]
    else ledger
  }

  function Ledger(trace: seq<Step>): seq<Disposal> {
    if trace == [] then [] else Entered(Ledger(trace[..|trace| - 1]), trace[|trace| - 1])
  }

  function Heard(said: Option<Verdict>, step: Step): Option<Verdict> {
    if step.Ran? && step.verdicts != [] then Some(step.verdicts[|step.verdicts| - 1]) else said
  }

  /** The verdict of the last hook phase that ran. */
  function Said(trace: seq<Step>): Option<Verdict> {
    if trace == [] then None else Heard(Said(trace[..|trace| - 1]), trace[|trace| - 1])
  }

  function AllFreed(k: nat): seq<Disposal> {
    seq(k, i requires 0 <= i => Freed(i + 1))
  }

  predicate Over(pc: Pc) {
    pc.Leaving? || (pc.Halted? && pc.result.Some?)
  }

  /** Every attempt that is no longer live has been disposed of exactly once, in order, and all of them
      by release except that the last one may have been handed over by a call about to end. */
  ghost predicate LedgerInv(s: State, ledger: seq<Disposal>) {
    var d := s.data;
    var k := if d.live then d.n - 1 else d.n;
    0 <= k && (ledger == AllFreed(k) || (1 <= k && ledger == AllFreed(k - 1) + [Handed(k)] && Over(s.pc) && !d.live))
  }

  ghost predicate Settled(f: Final, n: nat, ledger: seq<Disposal>, said: Option<Verdict>) {
    if ledger != [] && ledger[|ledger| - 1].Handed? then f.resp == Some(Received(n)) && f.err == None
    else f.resp.Some? ==> said == Some(Succeed(f.resp))
  }

  /** Where the response of a final result comes from. */
  ghost predicate SourceInv(s: State, ledger: seq<Disposal>, said: Option<Verdict>) {
    && (s.pc.Telling? ==> said == Some(s.pc.verdict))
    && (s.pc.Logging? ==> s.pc.verdict.Continue? || said == Some(s.pc.verdict))
    && (s.pc.Dropping? && s.pc.final.resp.Some? ==> said == Some(Succeed(s.pc.final.resp)))
    && (s.pc.Handing? ==> s.pc.final.resp == Some(Received(s.data.n)) && s.pc.final.err == None)
    && (s.pc.Leaving? ==> Settled(s.pc.final, s.data.n, ledger, said))
    && (s.pc.Halted? && s.pc.result.Some? ==> Settled(s.pc.result.value, s.data.n, ledger, said))
  }

  lemma AllFreedSnoc(k: nat)
    ensures AllFreed(k) + [Freed(k + 1)] == AllFreed(k + 1)
  {
  }

  /** Only disposing of the current attempt and building the next one change what is live. */
  predicate LiveMoves(s: State, step: Step, t: State) {
    if step.Released? || step.Delivered? then
      && s.data.live && step.n == s.data.n && t.data.n == s.data.n && !t.data.live && !Over(s.pc)
      && (step.Delivered? ==> Over(t.pc))
    else if s.pc.Building? && step == Built(true) then t.data.n == s.data.n + 1 && t.data.live
    else t.data.n == s.data.n && t.data.live == s.data.live && (Over(s.pc) ==> Over(t.pc))
  }

  lemma LiveUnbuilt(cfg: Config, s: State, step: Step)
    requires StageOf(s.pc) == Unbuilt && NextUnbuilt(cfg, s, step).Some?
    ensures LiveMoves(s, step, NextUnbuilt(cfg, s, step).value)
  {
  }

  lemma LiveUnsent(cfg: Config, s: State, step: Step)
    requires StageOf(s.pc) == Unsent && NextUnsent(cfg, s, step).Some?
    ensures LiveMoves(s, step, NextUnsent(cfg, s, step).value)
  {
    UnsentFrame(cfg, s, step);
  }

  lemma LiveInFlight(cfg: Config, s: State, step: Step)
    requires StageOf(s.pc) == InFlight && NextInFlight(cfg, s, step).Some?
    ensures LiveMoves(s, step, NextInFlight(cfg, s, step).value)
  {
    InFlightFrame(cfg, s, step);
  }

  lemma LiveJudged(cfg: Config, s: State, step: Step)
    requires StageOf(s.pc) == Judged && NextJudged(cfg, s, step).Some?
    ensures LiveMoves(s, step, NextJudged(cfg, s, step).value)
  {
    JudgedFrame(cfg, s, step);
  }

  lemma LiveResting(cfg: Config, s: State, step: Step)
    requires StageOf(s.pc) == Resting && NextResting(cfg, s, step).Some?
    ensures LiveMoves(s, step, NextResting(cfg, s, step).value)
  {
    RestingFrame(cfg, s, step);
  }

  lemma LiveEnding(cfg: Config, s: State, step: Step)
    requires StageOf(s.pc) == Ending && NextEnding(cfg, s, step).Some?
    ensures LiveMoves(s, step, NextEnding(cfg, s, step).value)
  {
    EndingFrame(cfg, s, step);
  }

  lemma LiveStep(cfg: Config, s: State, step: Step)
    requires Next(cfg, s, step).Some?
    ensures LiveMoves(s, step, Next(cfg, s, step).value)
  {
    match StageOf(s.pc)
    case Unbuilt => LiveUnbuilt(cfg, s, step);
    case Unsent => LiveUnsent(cfg, s, step);
    case InFlight => LiveInFlight(cfg, s, step);
    case Judged => LiveJudged(cfg, s, step);
    case Resting => LiveResting(cfg, s, step);
    case Ending => LiveEnding(cfg, s, step);
  }

  lemma LedgerStep(cfg: Config, s: State, step: Step, ledger: seq<Disposal>)
    requires Counts(cfg, s) && LedgerInv(s, ledger) && Next(cfg, s, step).Some?
    ensures LedgerInv(Next(cfg, s, step).value, Entered(ledger, step))
  {
    LiveStep(cfg, s, step);
    if s.data.n >= 1 {
      AllFreedSnoc(s.data.n - 1);
    }
  }

  lemma SourceUnbuilt(cfg: Config, s: State, step: Step, ledger: seq<Disposal>, said: Option<Verdict>)
    requires StageOf(s.pc) == Unbuilt && Counts(cfg, s) && LedgerInv(s, ledger) && SourceInv(s, ledger, said)
    requires NextUnbuilt(cfg, s, step).Some?
    ensures SourceInv(NextUnbuilt(cfg, s, step).value, Entered(ledger, step), Heard(said, step))
  {
  }

  lemma SourceUnsent(cfg: Config, s: State, step: Step, ledger: seq<Disposal>, said: Option<Verdict>)
    requires StageOf(s.pc) == Unsent && Counts(cfg, s) && LedgerInv(s, ledger) && SourceInv(s, ledger, said)
    requires NextUnsent(cfg, s, step).Some?
    ensures SourceInv(NextUnsent(cfg, s, step).value, Entered(ledger, step), Heard(said, step))
  {
  }

  lemma SourceInFlight(cfg: Config, s: State, step: Step, ledger: seq<Disposal>, said: Option<Verdict>)
    requires StageOf(s.pc) == InFlight && Counts(cfg, s) && LedgerInv(s, ledger) && SourceInv(s, ledger, said)
    requires NextInFlight(cfg, s, step).Some?
    ensures SourceInv(NextInFlight(cfg, s, step).value, Entered(ledger, step), Heard(said, step))
  {
  }

  lemma SourceJudged(cfg: Config, s: State, step: Step, ledger: seq<Disposal>, said: Option<Verdict>)
    requires StageOf(s.pc) == Judged && Counts(cfg, s) && LedgerInv(s, ledger) && SourceInv(s, ledger, said)
    requires NextJudged(cfg, s, step).Some?
    ensures SourceInv(NextJudged(cfg, s, step).value, Entered(ledger, step), Heard(said, step))
  {
  }

  lemma SourceResting(cfg: Config, s: State, step: Step, ledger: seq<Disposal>, said: Option<Verdict>)
    requires StageOf(s.pc) == Resting && Counts(cfg, s) && LedgerInv(s, ledger) && SourceInv(s, ledger, said)
    requires NextResting(cfg, s, step).Some?
    ensures SourceInv(NextResting(cfg, s, step).value, Entered(ledger, step), Heard(said, step))
  {
  }

  lemma SourceEnding(cfg: Config, s: State, step: Step, ledger: seq<Disposal>, said: Option<Verdict>)
    requires StageOf(s.pc) == Ending && Counts(cfg, s) && LedgerInv(s, ledger) && SourceInv(s, ledger, said)
    requires NextEnding(cfg, s, step).Some?
    ensures SourceInv(NextEnding(cfg, s, step).value, Entered(ledger, step), Heard(said, step))
  {
  }

  lemma {:induction false} OwnershipAlways(cfg: Config, trace: seq<Step>)
    requires cfg.Normal() && Run(cfg, trace).Some?
    ensures Counts(cfg, Run(cfg, trace).value)
    ensures LedgerInv(Run(cfg, trace).value, Ledger(trace))
    ensures SourceInv(Run(cfg, trace).value, Ledger(trace), Said(trace))
  {
    CountsAlways(cfg, trace);
    if trace != [] {
      var before := trace[..|trace| - 1];
      var s, step := Run(cfg, before).value, trace[|trace| - 1];
      OwnershipAlways(cfg, before);
      LedgerStep(cfg, s, step, Ledger(before));
      match StageOf(s.pc)
      case Unbuilt => SourceUnbuilt(cfg, s, step, Ledger(before), Said(before));
      case Unsent => SourceUnsent(cfg, s, step, Ledger(before), Said(before));
      case InFlight => SourceInFlight(cfg, s, step, Ledger(before), Said(before));
      case Judged => SourceJudged(cfg, s, step, Ledger(before), Said(before));
      case Resting => SourceResting(cfg, s, step, Ledger(before), Said(before));
      case Ending => SourceEnding(cfg, s, step, Ledger(before), Said(before));
    }
  }

  /** All `n` attempts were released, or all but the last, which is the caller's. */
  ghost predicate DisposedOnce(n: nat, ledger: seq<Disposal>) {
    ledger == AllFreed(n) || (n >= 1 && ledger == AllFreed(n - 1) + [Handed(n)])
  }

  lemma LastHanded(n: nat, ledger: seq<Disposal>)
    requires DisposedOnce(n, ledger)
    ensures forall k :: Handed(k) in ledger <==> ledger != [] && ledger[|ledger| - 1] == Handed(k)
    ensures ledger != [] && ledger[|ledger| - 1].Handed? ==> ledger[|ledger| - 1] == Handed(n)
  {
    assert forall i :: 0 <= i < |ledger| - 1 ==> ledger[i].Freed?;
  }

  /** What the caller gets was handed over open, or is what a hook handed in. */
  ghost predicate RightfullyOwned(f: Final, n: nat, ledger: seq<Disposal>, said: Option<Verdict>) {
    && (Handed(n) in ledger ==> f.resp == Some(Received(n)) && f.err == None)
    && (f.resp.Some? && !(f.resp.value.Received? && Handed(f.resp.value.n) in ledger) ==> said == Some(Succeed(f.resp)))
  }

  /** MAIN RESULT. When a call ends without a panic, every attempt it built has been disposed of exactly
      once, in order: released by the engine, except that the last one is with the caller exactly when
      its open response is what the call returns on its own account. A response of an attempt that was
      released comes back only if a hook handed it in. */
  lemma {:induction false} EveryAttemptDisposedOnce(cfg: Config, trace: seq<Step>, s: State, f: Final)
    requires cfg.Normal() && Run(cfg, trace) == Some(s) && s.pc == Halted(Some(f))
    ensures DisposedOnce(s.data.n, Ledger(trace))
    ensures RightfullyOwned(f, s.data.n, Ledger(trace), Said(trace))
  {
    OwnershipAlways(cfg, trace);
    LastHanded(s.data.n, Ledger(trace));
  }

  /** Once a hook has stopped the call, its word stands and nothing else decides any more. */
  predicate WordStands(pc: Pc, said: Option<Verdict>, why: Why) {
    said.Some? && !said.value.Continue? ==>
      && why.HookStop? && why.verdict == said.value
      && if pc.Telling? || pc.Logging? then pc.verdict == said.value
         else pc.Dropping? || pc.Handing? || pc.Leaving? || pc.Crashing? || pc.Halted?
  }

  lemma WordUnbuilt(cfg: Config, s: State, step: Step, said: Option<Verdict>, why: Why)
    requires StageOf(s.pc) == Unbuilt && WordStands(s.pc, said, why) && NextUnbuilt(cfg, s, step).Some?
    ensures WordStands(NextUnbuilt(cfg, s, step).value.pc, Heard(said, step), why.Then(cfg, step))
  {
  }

  lemma WordUnsent(cfg: Config, s: State, step: Step, said: Option<Verdict>, why: Why)
    requires StageOf(s.pc) == Unsent && WordStands(s.pc, said, why) && NextUnsent(cfg, s, step).Some?
    ensures WordStands(NextUnsent(cfg, s, step).value.pc, Heard(said, step), why.Then(cfg, step))
  {
  }

  lemma WordInFlight(cfg: Config, s: State, step: Step, said: Option<Verdict>, why: Why)
    requires StageOf(s.pc) == InFlight && WordStands(s.pc, said, why) && NextInFlight(cfg, s, step).Some?
    ensures WordStands(NextInFlight(cfg, s, step).value.pc, Heard(said, step), why.Then(cfg, step))
  {
  }

  lemma WordJudged(cfg: Config, s: State, step: Step, said: Option<Verdict>, why: Why)
    requires StageOf(s.pc) == Judged && WordStands(s.pc, said, why) && NextJudged(cfg, s, step).Some?
    ensures WordStands(NextJudged(cfg, s, step).value.pc, Heard(said, step), why.Then(cfg, step))
  {
  }

  lemma WordResting(cfg: Config, s: State, step: Step, said: Option<Verdict>, why: Why)
    requires StageOf(s.pc) == Resting && WordStands(s.pc, said, why) && NextResting(cfg, s, step).Some?
    ensures WordStands(NextResting(cfg, s, step).value.pc, Heard(said, step), why.Then(cfg, step))
  {
  }

  lemma WordEnding(cfg: Config, s: State, step: Step, said: Option<Verdict>, why: Why)
    requires StageOf(s.pc) == Ending && WordStands(s.pc, said, why) && NextEnding(cfg, s, step).Some?
    ensures WordStands(NextEnding(cfg, s, step).value.pc, Heard(said, step), why.Then(cfg, step))
  {
  }

  lemma {:induction false} WordAlways(cfg: Config, trace: seq<Step>)
    requires cfg.Normal() && Run(cfg, trace).Some?
    ensures WordStands(Run(cfg, trace).value.pc, Said(trace), Told(cfg, trace))
  {
    if trace != [] {
      var before := trace[..|trace| - 1];
      var s, step := Run(cfg, before).value, trace[|trace| - 1];
      WordAlways(cfg, before);
      match StageOf(s.pc)
      case Unbuilt => WordUnbuilt(cfg, s, step, Said(before), Told(cfg, before));
      case Unsent => WordUnsent(cfg, s, step, Said(before), Told(cfg, before));
      case InFlight => WordInFlight(cfg, s, step, Said(before), Told(cfg, before));
      case Judged => WordJudged(cfg, s, step, Said(before), Told(cfg, before));
      case Resting => WordResting(cfg, s, step, Said(before), Told(cfg, before));
      case Ending => WordEnding(cfg, s, step, Said(before), Told(cfg, before));
    }
  }

  lemma FreedUnlessHanded(n: nat, ledger: seq<Disposal>, m: nat)
    requires DisposedOnce(n, ledger) && 1 <= m <= n
    ensures Freed(m) in ledger <==> Handed(m) !in ledger
  {
    if ledger == AllFreed(n) {
      assert ledger[m - 1] == Freed(m);
    } else {
      assert if m < n then ledger[m - 1] == Freed(m) else ledger[n - 1] == Handed(m);
    }
  }

  /** MAIN RESULT. A response that is not the gift of a hook is the last attempt's own, and the caller gets
      it open: it was handed over, never released. */
  lemma {:induction false} OwnResponseIsOpen(cfg: Config, trace: seq<Step>, s: State, f: Final)
    requires cfg.Normal() && Run(cfg, trace) == Some(s) && s.pc == Halted(Some(f))
    requires f.resp.Some? && !Told(cfg, trace).HookStop?
    ensures f.resp == Some(Received(s.data.n)) && s.data.n >= 1
    ensures Handed(s.data.n) in Ledger(trace) && Freed(s.data.n) !in Ledger(trace)
  {
    EveryAttemptDisposedOnce(cfg, trace, s, f);
    WordAlways(cfg, trace);
    LabelTellsTheEnding(cfg, trace, s);
    CountsAlways(cfg, trace);
    FreedUnlessHanded(s.data.n, Ledger(trace), s.data.n);
  }

  /** The hook that stopped the call was asked while the current attempt's response was still open: after
      the attempt, or when giving up for another reason than the gate. */
  predicate AskedWhileOpen(d: Data, why: Why)
    requires why.HookStop?
  {
    d.Answered() && (why.phase.After? || (why.phase.GiveUp? && d.reason != Some(DownstreamDown)))
  }

  /** The current attempt's own response, handed in by a hook, is handed over exactly if it was open. */
  ghost predicate OpenInv(s: State, ledger: seq<Disposal>, why: Why) {
    var d := s.data;
    && ((s.pc.Running? || s.pc.Telling?) && s.pc.phase.GiveUp? && d.Answered() ==>
          (d.live <==> d.reason != Some(DownstreamDown)))
    && (why.HookStop? && why.verdict == Succeed(Some(Received(d.n))) ==>
          && (s.pc.Dropping? ==> !AskedWhileOpen(d, why))
          && (s.pc.Handing? ==> AskedWhileOpen(d, why))
          && (Over(s.pc) ==> (ledger != [] && ledger[|ledger| - 1] == Handed(d.n) <==> AskedWhileOpen(d, why))))
  }

  lemma OpenUnbuilt(cfg: Config, s: State, step: Step, ledger: seq<Disposal>, why: Why)
    requires StageOf(s.pc) == Unbuilt && Counts(cfg, s) && LabelInv(cfg, s, why)
    requires LedgerInv(s, ledger) && OpenInv(s, ledger, why) && NextUnbuilt(cfg, s, step).Some?
    ensures OpenInv(NextUnbuilt(cfg, s, step).value, Entered(ledger, step), why.Then(cfg, step))
  {
  }

  lemma OpenUnsentHooks(cfg: Config, s: State, step: Step, ledger: seq<Disposal>, why: Why)
    requires StageOf(s.pc) == Unsent && Counts(cfg, s) && LabelInv(cfg, s, why)
    requires LedgerInv(s, ledger) && OpenInv(s, ledger, why) && NextUnsent(cfg, s, step).Some?
    requires s.pc.Running? || s.pc.Telling?
    ensures OpenInv(NextUnsent(cfg, s, step).value, Entered(ledger, step), why.Then(cfg, step))
  {
  }

  lemma OpenUnsentRest(cfg: Config, s: State, step: Step, ledger: seq<Disposal>, why: Why)
    requires StageOf(s.pc) == Unsent && Counts(cfg, s) && LabelInv(cfg, s, why)
    requires LedgerInv(s, ledger) && OpenInv(s, ledger, why) && NextUnsent(cfg, s, step).Some?
    requires !s.pc.Running? && !s.pc.Telling?
    ensures OpenInv(NextUnsent(cfg, s, step).value, Entered(ledger, step), why.Then(cfg, step))
  {
  }

  lemma OpenUnsent(cfg: Config, s: State, step: Step, ledger: seq<Disposal>, why: Why)
    requires StageOf(s.pc) == Unsent && Counts(cfg, s) && LabelInv(cfg, s, why)
    requires LedgerInv(s, ledger) && OpenInv(s, ledger, why) && NextUnsent(cfg, s, step).Some?
    ensures OpenInv(NextUnsent(cfg, s, step).value, Entered(ledger, step), why.Then(cfg, step))
  {
    if s.pc.Running? || s.pc.Telling? {
      OpenUnsentHooks(cfg, s, step, ledger, why);
    } else {
      OpenUnsentRest(cfg, s, step, ledger, why);
    }
  }

  lemma OpenInFlightHooks(cfg: Config, s: State, step: Step, ledger: seq<Disposal>, why: Why)
    requires StageOf(s.pc) == InFlight && Counts(cfg, s) && LabelInv(cfg, s, why)
    requires LedgerInv(s, ledger) && OpenInv(s, ledger, why) && NextInFlight(cfg, s, step).Some?
    requires s.pc.Running? || s.pc.Telling?
    ensures OpenInv(NextInFlight(cfg, s, step).value, Entered(ledger, step), why.Then(cfg, step))
  {
  }

  lemma OpenInFlightRest(cfg: Config, s: State, step: Step, ledger: seq<Disposal>, why: Why)
    requires StageOf(s.pc) == InFlight && Counts(cfg, s) && LabelInv(cfg, s, why)
    requires LedgerInv(s, ledger) && OpenInv(s, ledger, why) && NextInFlight(cfg, s, step).Some?
    requires !s.pc.Running? && !s.pc.Telling?
    ensures OpenInv(NextInFlight(cfg, s, step).value, Entered(ledger, step), why.Then(cfg, step))
  {
  }

  lemma OpenInFlight(cfg: Config, s: State, step: Step, ledger: seq<Disposal>, why: Why)
    requires StageOf(s.pc) == InFlight && Counts(cfg, s) && LabelInv(cfg, s, why)
    requires LedgerInv(s, ledger) && OpenInv(s, ledger, why) && NextInFlight(cfg, s, step).Some?
    ensures OpenInv(NextInFlight(cfg, s, step).value, Entered(ledger, step), why.Then(cfg, step))
  {
    if s.pc.Running? || s.pc.Telling? {
      OpenInFlightHooks(cfg, s, step, ledger, why);
    } else {
      OpenInFlightRest(cfg, s, step, ledger, why);
    }
  }

  lemma OpenJudged(cfg: Config, s: State, step: Step, ledger: seq<Disposal>, why: Why)
    requires StageOf(s.pc) == Judged && Counts(cfg, s) && LabelInv(cfg, s, why)
    requires LedgerInv(s, ledger) && OpenInv(s, ledger, why) && NextJudged(cfg, s, step).Some?
    ensures OpenInv(NextJudged(cfg, s, step).value, Entered(ledger, step), why.Then(cfg, step))
  {
  }

  lemma OpenRestingHooks(cfg: Config, s: State, step: Step, ledger: seq<Disposal>, why: Why)
    requires StageOf(s.pc) == Resting && Counts(cfg, s) && LabelInv(cfg, s, why)
    requires LedgerInv(s, ledger) && OpenInv(s, ledger, why) && NextResting(cfg, s, step).Some?
    requires s.pc.Running? || s.pc.Telling?
    ensures OpenInv(NextResting(cfg, s, step).value, Entered(ledger, step), why.Then(cfg, step))
  {
  }

  lemma OpenRestingRest(cfg: Config, s: State, step: Step, ledger: seq<Disposal>, why: Why)
    requires StageOf(s.pc) == Resting && Counts(cfg, s) && LabelInv(cfg, s, why)
    requires LedgerInv(s, ledger) && OpenInv(s, ledger, why) && NextResting(cfg, s, step).Some?
    requires !s.pc.Running? && !s.pc.Telling?
    ensures OpenInv(NextResting(cfg, s, step).value, Entered(ledger, step), why.Then(cfg, step))
  {
  }

  lemma OpenResting(cfg: Config, s: State, step: Step, ledger: seq<Disposal>, why: Why)
    requires StageOf(s.pc) == Resting && Counts(cfg, s) && LabelInv(cfg, s, why)
    requires LedgerInv(s, ledger) && OpenInv(s, ledger, why) && NextResting(cfg, s, step).Some?
    ensures OpenInv(NextResting(cfg, s, step).value, Entered(ledger, step), why.Then(cfg, step))
  {
    if s.pc.Running? || s.pc.Telling? {
      OpenRestingHooks(cfg, s, step, ledger, why);
    } else {
      OpenRestingRest(cfg, s, step, ledger, why);
    }
  }

  lemma OpenEndingHooks(cfg: Config, s: State, step: Step, ledger: seq<Disposal>, why: Why)
    requires StageOf(s.pc) == Ending && Counts(cfg, s) && LabelInv(cfg, s, why)
    requires LedgerInv(s, ledger) && OpenInv(s, ledger, why) && NextEnding(cfg, s, step).Some?
    requires s.pc.Running? || s.pc.Telling?
    ensures OpenInv(NextEnding(cfg, s, step).value, Entered(ledger, step), why.Then(cfg, step))
  {
  }

  lemma OpenEndingRest(cfg: Config, s: State, step: Step, ledger: seq<Disposal>, why: Why)
    requires StageOf(s.pc) == Ending && Counts(cfg, s) && LabelInv(cfg, s, why)
    requires LedgerInv(s, ledger) && OpenInv(s, ledger, why) && NextEnding(cfg, s, step).Some?
    requires !s.pc.Running? && !s.pc.Telling?
    ensures OpenInv(NextEnding(cfg, s, step).value, Entered(ledger, step), why.Then(cfg, step))
  {
  }

  lemma OpenEnding(cfg: Config, s: State, step: Step, ledger: seq<Disposal>, why: Why)
    requires StageOf(s.pc) == Ending && Counts(cfg, s) && LabelInv(cfg, s, why)
    requires LedgerInv(s, ledger) && OpenInv(s, ledger, why) && NextEnding(cfg, s, step).Some?
    ensures OpenInv(NextEnding(cfg, s, step).value, Entered(ledger, step), why.Then(cfg, step))
  {
    if s.pc.Running? || s.pc.Telling? {
      OpenEndingHooks(cfg, s, step, ledger, why);
    } else {
      OpenEndingRest(cfg, s, step, ledger, why);
    }
  }

  lemma {:induction false} OpenAlways(cfg: Config, trace: seq<Step>)
    requires cfg.Normal() && Run(cfg, trace).Some?
    ensures OpenInv(Run(cfg, trace).value, Ledger(trace), Told(cfg, trace))
  {
    if trace != [] {
      var before := trace[..|trace| - 1];
      var s, step := Run(cfg, before).value, trace[|trace| - 1];
      OwnershipAlways(cfg, before);
      LabelAlways(cfg, before);
      OpenAlways(cfg, before);
      match StageOf(s.pc)
      case Unbuilt => OpenUnbuilt(cfg, s, step, Ledger(before), Told(cfg, before));
      case Unsent => OpenUnsent(cfg, s, step, Ledger(before), Told(cfg, before));
      case InFlight => OpenInFlight(cfg, s, step, Ledger(before), Told(cfg, before));
      case Judged => OpenJudged(cfg, s, step, Ledger(before), Told(cfg, before));
      case Resting => OpenResting(cfg, s, step, Ledger(before), Told(cfg, before));
      case Ending => OpenEnding(cfg, s, step, Ledger(before), Told(cfg, before));
    }
  }

  /** A hook stopped the call by handing in the response of attempt `m`, and not as the current attempt's own
      while that was still open. */
  predicate HandsInDrained(d: Data, why: Why, m: nat) {
    && why.HookStop? && why.verdict == Succeed(Some(Received(m)))
    && !(m == d.n && AskedWhileOpen(d, why))
  }

  /** MAIN RESULT. A call returns the response of an attempt that it has released exactly if a hook hands that
      response in, and it is not the current attempt's own response handed in by an After hook, or by a
      give-up hook that is asked for another reason than the gate. */
  lemma {:induction false} DrainedComesBackIff(cfg: Config, trace: seq<Step>, s: State, f: Final, m: nat)
    requires cfg.Normal() && Run(cfg, trace) == Some(s) && s.pc == Halted(Some(f)) && 1 <= m <= s.data.n
    ensures f.resp == Some(Received(m)) && Freed(m) in Ledger(trace) <==> HandsInDrained(s.data, Told(cfg, trace), m)
  {
    EveryAttemptDisposedOnce(cfg, trace, s, f);
    LastHanded(s.data.n, Ledger(trace));
    FreedUnlessHanded(s.data.n, Ledger(trace), m);
    LabelTellsTheEnding(cfg, trace, s);
    OpenAlways(cfg, trace);
    if f.resp.Some? && !Told(cfg, trace).HookStop? {
      OwnResponseIsOpen(cfg, trace, s, f);
    }
  }
}
