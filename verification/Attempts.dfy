/** What each attempt sends, and what the gate is told of it. */
module Attempts {
  import opened Base
  import opened Protocol
  import opened Counting

  /** The request of the current attempt: the caller's own when the attempt is built, and from then on what
      the hooks have made of it. */
  function Draft(cfg: Config, trace: seq<Step>): Request {
    if trace == [] then cfg.original else Drafted(cfg, Draft(cfg, trace[..|trace| - 1]), trace[|trace| - 1])
  }

  function Drafted(cfg: Config, draft: Request, step: Step): Request {
    if step.Built? && step.ok then cfg.original
    else if step.Ran? then step.edit.req
    else draft
  }

  /** No hook has run since the attempt was built. */
  function Untouched(trace: seq<Step>): bool {
    trace == [] || StillUntouched(Untouched(trace[..|trace| - 1]), trace[|trace| - 1])
  }

  function StillUntouched(untouched: bool, step: Step): bool {
    if step.Built? && step.ok then true else untouched && !step.Ran?
  }

  /** The outcomes that the classifier has found, in order. */
  function Findings(trace: seq<Step>): seq<Outcome> {
    if trace == [] then [] else Found(Findings(trace[..|trace| - 1]), trace[|trace| - 1])
  }

  function Found(findings: seq<Outcome>, step: Step): seq<Outcome> {
    if step.Classified? then findings + [step.outcome] else findings
  }

  /** The outcomes that the gate has been told, in order. */
  function Reports(trace: seq<Step>): seq<Outcome> {
    if trace == [] then [] else Told(Reports(trace[..|trace| - 1]), trace[|trace| - 1])
  }

  function Told(reports: seq<Outcome>, step: Step): seq<Outcome> {
    if step.Reported? then reports + [step.outcome] else reports
  }

  /** The draft is what the call holds; a fresh attempt is untouched until its Before hooks have run. */
  ghost predicate DraftInv(cfg: Config, s: State, draft: Request, untouched: bool) {
    && draft == s.data.req
    && (untouched ==> draft == cfg.original)
    && (StageOf(s.pc).Unsent? ==> (untouched <==> cfg.before == 0 || !(s.pc.Telling? || s.pc.Sending?)))
  }

  /** The gate knows every outcome found, but for one that it is just about to be told. */
  ghost predicate ReportInv(cfg: Config, s: State, findings: seq<Outcome>, reports: seq<Outcome>) {
    if !cfg.gated then reports == [] && !s.pc.Reporting?
    else if s.pc.Reporting? then findings == reports + [s.data.outcome]
    else findings == reports
  }

  lemma DraftUnbuilt(cfg: Config, s: State, step: Step, draft: Request, untouched: bool)
    requires StageOf(s.pc) == Unbuilt && DraftInv(cfg, s, draft, untouched) && NextUnbuilt(cfg, s, step).Some?
    ensures DraftInv(cfg, NextUnbuilt(cfg, s, step).value, Drafted(cfg, draft, step), StillUntouched(untouched, step))
  {
  }

  lemma DraftUnsent(cfg: Config, s: State, step: Step, draft: Request, untouched: bool)
    requires StageOf(s.pc) == Unsent && DraftInv(cfg, s, draft, untouched) && NextUnsent(cfg, s, step).Some?
    ensures DraftInv(cfg, NextUnsent(cfg, s, step).value, Drafted(cfg, draft, step), StillUntouched(untouched, step))
  {
  }

  lemma DraftInFlight(cfg: Config, s: State, step: Step, draft: Request, untouched: bool)
    requires StageOf(s.pc) == InFlight && DraftInv(cfg, s, draft, untouched) && NextInFlight(cfg, s, step).Some?
    ensures DraftInv(cfg, NextInFlight(cfg, s, step).value, Drafted(cfg, draft, step), StillUntouched(untouched, step))
  {
  }

  lemma DraftJudged(cfg: Config, s: State, step: Step, draft: Request, untouched: bool)
    requires StageOf(s.pc) == Judged && DraftInv(cfg, s, draft, untouched) && NextJudged(cfg, s, step).Some?
    ensures DraftInv(cfg, NextJudged(cfg, s, step).value, Drafted(cfg, draft, step), StillUntouched(untouched, step))
  {
  }

  lemma DraftResting(cfg: Config, s: State, step: Step, draft: Request, untouched: bool)
    requires StageOf(s.pc) == Resting && DraftInv(cfg, s, draft, untouched) && NextResting(cfg, s, step).Some?
    ensures DraftInv(cfg, NextResting(cfg, s, step).value, Drafted(cfg, draft, step), StillUntouched(untouched, step))
  {
  }

  lemma DraftEnding(cfg: Config, s: State, step: Step, draft: Request, untouched: bool)
    requires StageOf(s.pc) == Ending && DraftInv(cfg, s, draft, untouched) && NextEnding(cfg, s, step).Some?
    ensures DraftInv(cfg, NextEnding(cfg, s, step).value, Drafted(cfg, draft, step), StillUntouched(untouched, step))
  {
  }

  lemma DraftStep(cfg: Config, s: State, step: Step, draft: Request, untouched: bool)
    requires DraftInv(cfg, s, draft, untouched) && Next(cfg, s, step).Some?
    ensures DraftInv(cfg, Next(cfg, s, step).value, Drafted(cfg, draft, step), StillUntouched(untouched, step))
  {
    match StageOf(s.pc)
    case Unbuilt => DraftUnbuilt(cfg, s, step, draft, untouched);
    case Unsent => DraftUnsent(cfg, s, step, draft, untouched);
    case InFlight => DraftInFlight(cfg, s, step, draft, untouched);
    case Judged => DraftJudged(cfg, s, step, draft, untouched);
    case Resting => DraftResting(cfg, s, step, draft, untouched);
    case Ending => DraftEnding(cfg, s, step, draft, untouched);
  }

  lemma ReportUnbuilt(cfg: Config, s: State, step: Step, findings: seq<Outcome>, reports: seq<Outcome>)
    requires StageOf(s.pc) == Unbuilt && ReportInv(cfg, s, findings, reports) && NextUnbuilt(cfg, s, step).Some?
    ensures ReportInv(cfg, NextUnbuilt(cfg, s, step).value, Found(findings, step), Told(reports, step))
  {
  }

  lemma ReportUnsent(cfg: Config, s: State, step: Step, findings: seq<Outcome>, reports: seq<Outcome>)
    requires StageOf(s.pc) == Unsent && ReportInv(cfg, s, findings, reports) && NextUnsent(cfg, s, step).Some?
    ensures ReportInv(cfg, NextUnsent(cfg, s, step).value, Found(findings, step), Told(reports, step))
  {
  }

  lemma ReportInFlight(cfg: Config, s: State, step: Step, findings: seq<Outcome>, reports: seq<Outcome>)
    requires StageOf(s.pc) == InFlight && ReportInv(cfg, s, findings, reports) && NextInFlight(cfg, s, step).Some?
    ensures ReportInv(cfg, NextInFlight(cfg, s, step).value, Found(findings, step), Told(reports, step))
  {
  }

  lemma ReportJudged(cfg: Config, s: State, step: Step, findings: seq<Outcome>, reports: seq<Outcome>)
    requires StageOf(s.pc) == Judged && ReportInv(cfg, s, findings, reports) && NextJudged(cfg, s, step).Some?
    ensures ReportInv(cfg, NextJudged(cfg, s, step).value, Found(findings, step), Told(reports, step))
  {
  }

  lemma ReportResting(cfg: Config, s: State, step: Step, findings: seq<Outcome>, reports: seq<Outcome>)
    requires StageOf(s.pc) == Resting && ReportInv(cfg, s, findings, reports) && NextResting(cfg, s, step).Some?
    ensures ReportInv(cfg, NextResting(cfg, s, step).value, Found(findings, step), Told(reports, step))
  {
  }

  lemma ReportEnding(cfg: Config, s: State, step: Step, findings: seq<Outcome>, reports: seq<Outcome>)
    requires StageOf(s.pc) == Ending && ReportInv(cfg, s, findings, reports) && NextEnding(cfg, s, step).Some?
    ensures ReportInv(cfg, NextEnding(cfg, s, step).value, Found(findings, step), Told(reports, step))
  {
  }

  lemma ReportStep(cfg: Config, s: State, step: Step, findings: seq<Outcome>, reports: seq<Outcome>)
    requires ReportInv(cfg, s, findings, reports) && Next(cfg, s, step).Some?
    ensures ReportInv(cfg, Next(cfg, s, step).value, Found(findings, step), Told(reports, step))
  {
    match StageOf(s.pc)
    case Unbuilt => ReportUnbuilt(cfg, s, step, findings, reports);
    case Unsent => ReportUnsent(cfg, s, step, findings, reports);
    case InFlight => ReportInFlight(cfg, s, step, findings, reports);
    case Judged => ReportJudged(cfg, s, step, findings, reports);
    case Resting => ReportResting(cfg, s, step, findings, reports);
    case Ending => ReportEnding(cfg, s, step, findings, reports);
  }

  lemma {:induction false} AttemptsAlways(cfg: Config, trace: seq<Step>)
    requires Run(cfg, trace).Some?
    ensures DraftInv(cfg, Run(cfg, trace).value, Draft(cfg, trace), Untouched(trace))
    ensures ReportInv(cfg, Run(cfg, trace).value, Findings(trace), Reports(trace))
  {
    if trace != [] {
      var before := trace[..|trace| - 1];
      var s, step := Run(cfg, before).value, trace[|trace| - 1];
      AttemptsAlways(cfg, before);
      DraftStep(cfg, s, step, Draft(cfg, before), Untouched(before));
      ReportStep(cfg, s, step, Findings(before), Reports(before));
    }
  }

  /** What a run may do next as far as the attempt's request and the gate are concerned. */
  predicate InOrder(cfg: Config, step: Step, draft: Request, untouched: bool,
                    findings: seq<Outcome>, reports: seq<Outcome>)
  {
    && (step.Sent? ==> step.req == draft && (untouched <==> cfg.before == 0))
    && (untouched ==> draft == cfg.original)
    && (step.Ran? && step.phase.Before? ==> untouched && draft == cfg.original)
    && (step.Reported? ==> cfg.gated && findings == reports + [step.outcome])
    && (step.Classified? || step.Ran? || step.Sent? || step.Emit? ==>
          reports == if cfg.gated then findings else [])
  }

  lemma NextIsInOrder(cfg: Config, s: State, step: Step, draft: Request, untouched: bool,
                      findings: seq<Outcome>, reports: seq<Outcome>)
    requires DraftInv(cfg, s, draft, untouched) && ReportInv(cfg, s, findings, reports) && Next(cfg, s, step).Some?
    ensures InOrder(cfg, step, draft, untouched, findings, reports)
  {
    match StageOf(s.pc)
    case Unbuilt => assert NextUnbuilt(cfg, s, step).Some?;
    case Unsent => assert NextUnsent(cfg, s, step).Some?;
    case InFlight => assert NextInFlight(cfg, s, step).Some?;
    case Judged => assert NextJudged(cfg, s, step).Some?;
    case Resting => assert NextResting(cfg, s, step).Some?;
    case Ending => assert NextEnding(cfg, s, step).Some?;
  }

  /** MAIN RESULT. Every attempt starts from the caller's own request, whatever the hooks have made of the
      attempts before it: that is what its Before hooks are given, they have run before every send, and what
      is sent is what they left, or the caller's own if there are none. And a gate is told every outcome that
      the classifier finds once, before the After hooks can change it. */
  lemma {:induction false} AttemptsStartAfresh(cfg: Config, trace: seq<Step>, s: State, step: Step)
    requires Run(cfg, trace) == Some(s) && Next(cfg, s, step).Some?
    ensures InOrder(cfg, step, Draft(cfg, trace), Untouched(trace), Findings(trace), Reports(trace))
  {
    AttemptsAlways(cfg, trace);
    NextIsInOrder(cfg, s, step, Draft(cfg, trace), Untouched(trace), Findings(trace), Reports(trace));
  }
}
