/** What an attempt is taken for in the end, and that nothing unsafe is repeated on the strength of it. */
module Safety {
  import opened Base
  import opened Protocol
  import opened Counting
  import opened Attempts
  import Labels
  import Story

  /** What the attempt has been through since it was sent: the reply, the classifier's outcome, what the
      After hooks left behind, and whether the caller was gone. */
  datatype Passage = Passage(reply: Option<Reply>, lost: bool, found: Option<Outcome>, edit: Option<Edit>)
  {
    function Then(step: Step): Passage {
      if step.Sent? then Passage(Some(step.reply), step.reply.Failed? && step.ctxEnded, None, None)
      else if step.Classified? then this.(found := Some(step.outcome))
      else if step.Ran? && step.phase.After? then this.(edit := Some(step.edit))
      else this
    }

    /** The outcome that counts: what the After hooks left, else what the classifier found, and fatal for
        an attempt that the caller has abandoned. */
    function Settled(): Option<Outcome> {
      if lost then Some(Fatal)
      else if edit.Some? then Some(edit.value.outcome)
      else found
    }
  }

  function PassageOf(trace: seq<Step>): Passage {
    if trace == [] then Passage(None, false, None, None) else PassageOf(trace[..|trace| - 1]).Then(trace[|trace| - 1])
  }

  /** What the hooks of the call, of whatever phase and attempt, have left behind for the attempts to come:
      whether the call is idempotent, and its key. */
  function Marks(trace: seq<Step>): (bool, Option<string>) {
    if trace == [] then (false, None) else Marked(Marks(trace[..|trace| - 1]), trace[|trace| - 1])
  }

  function Marked(marks: (bool, Option<string>), step: Step): (bool, Option<string>) {
    if step.Ran? then (step.edit.idempotent, step.edit.key) else marks
  }

  ghost predicate PassageInv(cfg: Config, s: State, p: Passage, marks: (bool, Option<string>)) {
    var d := s.data;
    && marks == (d.idempotent, d.key)
    && (StageOf(s.pc).InFlight? ==>
          && p.reply == d.reply && p.lost == s.pc.Losing?
          && (p.lost ==> d.outcome == Fatal)
          && (p.found.None? <==> s.pc.Losing? || s.pc.Classifying?)
          && (p.edit.Some? <==> cfg.after > 0 && (s.pc.Telling? || s.pc.Logging?))
          && (p.found.Some? ==> p.Settled() == Some(d.outcome)))
  }

  lemma PassageUnbuilt(cfg: Config, s: State, step: Step, p: Passage, marks: (bool, Option<string>))
    requires StageOf(s.pc) == Unbuilt && PassageInv(cfg, s, p, marks) && NextUnbuilt(cfg, s, step).Some?
    ensures PassageInv(cfg, NextUnbuilt(cfg, s, step).value, p.Then(step), Marked(marks, step))
  {
  }

  lemma PassageUnsent(cfg: Config, s: State, step: Step, p: Passage, marks: (bool, Option<string>))
    requires StageOf(s.pc) == Unsent && PassageInv(cfg, s, p, marks) && NextUnsent(cfg, s, step).Some?
    ensures PassageInv(cfg, NextUnsent(cfg, s, step).value, p.Then(step), Marked(marks, step))
  {
  }

  lemma PassageInFlight(cfg: Config, s: State, step: Step, p: Passage, marks: (bool, Option<string>))
    requires StageOf(s.pc) == InFlight && PassageInv(cfg, s, p, marks) && NextInFlight(cfg, s, step).Some?
    ensures PassageInv(cfg, NextInFlight(cfg, s, step).value, p.Then(step), Marked(marks, step))
  {
  }

  lemma PassageJudged(cfg: Config, s: State, step: Step, p: Passage, marks: (bool, Option<string>))
    requires StageOf(s.pc) == Judged && PassageInv(cfg, s, p, marks) && NextJudged(cfg, s, step).Some?
    ensures PassageInv(cfg, NextJudged(cfg, s, step).value, p.Then(step), Marked(marks, step))
  {
  }

  lemma PassageResting(cfg: Config, s: State, step: Step, p: Passage, marks: (bool, Option<string>))
    requires StageOf(s.pc) == Resting && PassageInv(cfg, s, p, marks) && NextResting(cfg, s, step).Some?
    ensures PassageInv(cfg, NextResting(cfg, s, step).value, p.Then(step), Marked(marks, step))
  {
  }

  lemma PassageEnding(cfg: Config, s: State, step: Step, p: Passage, marks: (bool, Option<string>))
    requires StageOf(s.pc) == Ending && PassageInv(cfg, s, p, marks) && NextEnding(cfg, s, step).Some?
    ensures PassageInv(cfg, NextEnding(cfg, s, step).value, p.Then(step), Marked(marks, step))
  {
  }

  lemma {:induction false} PassageAlways(cfg: Config, trace: seq<Step>)
    requires Run(cfg, trace).Some?
    ensures PassageInv(cfg, Run(cfg, trace).value, PassageOf(trace), Marks(trace))
  {
    if trace != [] {
      var before := trace[..|trace| - 1];
      var s, step := Run(cfg, before).value, trace[|trace| - 1];
      PassageAlways(cfg, before);
      match StageOf(s.pc)
      case Unbuilt => PassageUnbuilt(cfg, s, step, PassageOf(before), Marks(before));
      case Unsent => PassageUnsent(cfg, s, step, PassageOf(before), Marks(before));
      case InFlight => PassageInFlight(cfg, s, step, PassageOf(before), Marks(before));
      case Judged => PassageJudged(cfg, s, step, PassageOf(before), Marks(before));
      case Resting => PassageResting(cfg, s, step, PassageOf(before), Marks(before));
      case Ending => PassageEnding(cfg, s, step, PassageOf(before), Marks(before));
    }
  }

  /** The methods that may be repeated without a hook's word: the empty one means GET, and the others are the
      idempotent methods of section 9.2.2 of RFC 9110. */
  predicate Repeatable(verb: string) {
    || verb == "" || verb == "GET" || verb == "HEAD" || verb == "OPTIONS" || verb == "TRACE"
    || verb == "PUT" || verb == "DELETE"
  }

  predicate IsReport(step: Step) {
    step.Emit? && step.event.AttemptDone?
  }

  /** An attempt event tells the reply, the outcome that counts, and whether the attempt is replay-safe: by a
      hook's word, or by the method of its request as the hooks have left it. */
  predicate TellsTruly(cfg: Config, e: Event, p: Passage, idempotent: bool, verb: string)
    requires e.AttemptDone?
  {
    && Some(e.reply) == p.reply && Some(e.outcome) == p.Settled()
    && (!p.lost ==> p.found.Some? && (p.edit.Some? <==> cfg.after > 0))
    && (e.replaySafe <==> idempotent || Repeatable(verb))
  }

  lemma ReportsAreInFlight(cfg: Config, s: State, step: Step)
    requires IsReport(step) && Next(cfg, s, step).Some?
    ensures StageOf(s.pc) == InFlight
  {
  }

  lemma TellsNext(cfg: Config, s: State, step: Step, p: Passage, marks: (bool, Option<string>), verb: string)
    requires PassageInv(cfg, s, p, marks) && verb == s.data.req.verb && IsReport(step) && Next(cfg, s, step).Some?
    ensures TellsTruly(cfg, step.event, p, marks.0, verb)
  {
    ReportsAreInFlight(cfg, s, step);
    assert NextInFlight(cfg, s, step).Some?;
  }

  lemma {:induction false} PrefixRuns(cfg: Config, trace: seq<Step>, i: nat)
    requires Run(cfg, trace).Some? && i < |trace|
    ensures Run(cfg, trace[..i]).Some? && Next(cfg, Run(cfg, trace[..i]).value, trace[i]).Some?
  {
    var before := trace[..|trace| - 1];
    if i < |before| {
      PrefixRuns(cfg, before, i);
      assert before[..i] == trace[..i];
    }
  }

  /** MAIN RESULT. In every run, every attempt is told and judged by what became of it: its own reply; the
      outcome that its After hooks left, or the classifier's if there are none, or fatal if the caller was
      gone; and replay-safe exactly if the hooks have last left the call idempotent, or have left the request
      with one of the methods that may be repeated. */
  lemma {:induction false} AttemptsAreToldAsLeft(cfg: Config, trace: seq<Step>, i: nat)
    requires Run(cfg, trace).Some? && i < |trace| && IsReport(trace[i])
    ensures TellsTruly(cfg, trace[i].event, PassageOf(trace[..i]), Marks(trace[..i]).0, Draft(cfg, trace[..i]).verb)
  {
    PrefixRuns(cfg, trace, i);
    PassageAlways(cfg, trace[..i]);
    AttemptsAlways(cfg, trace[..i]);
    TellsNext(cfg, Run(cfg, trace[..i]).value, trace[i], PassageOf(trace[..i]), Marks(trace[..i]),
              Draft(cfg, trace[..i]).verb);
  }

  /** MAIN RESULT. The idempotence of a call and its key are at any time what the last hook left behind. */
  lemma {:induction false} MarksStand(cfg: Config, trace: seq<Step>, s: State)
    requires Run(cfg, trace) == Some(s)
    ensures Marks(trace) == (s.data.idempotent, s.data.key)
  {
    PassageAlways(cfg, trace);
  }

  /** An attempt of unknown outcome, not replay-safe. */
  predicate IsBlind(step: Step) {
    IsReport(step) && step.event.outcome.Unknown? && !step.event.replaySafe
  }

  lemma BlindEnds(cfg: Config, s: State, step: Step)
    requires cfg.reconcile == 0 && IsBlind(step) && Next(cfg, s, step).Some?
    ensures StageOf(Next(cfg, s, step).value.pc).Ending?
  {
    match StageOf(s.pc)
    case InFlight => InFlightFrame(cfg, s, step);
    case Ending => EndingFrame(cfg, s, step);
    case _ =>
  }

  lemma EndingSendsNothing(cfg: Config, s: State, step: Step)
    requires StageOf(s.pc).Ending? && Next(cfg, s, step).Some?
    ensures StageOf(Next(cfg, s, step).value.pc).Ending? && !step.Sent? && !step.Budgeted?
  {
    EndingFrame(cfg, s, step);
  }

  lemma {:induction false} BlindStops(cfg: Config, trace: seq<Step>, i: nat)
    requires Run(cfg, trace).Some? && cfg.reconcile == 0 && i < |trace| && IsBlind(trace[i])
    ensures StageOf(Run(cfg, trace).value.pc).Ending?
    ensures forall j :: i < j < |trace| ==> !trace[j].Sent? && !trace[j].Budgeted?
  {
    var before, step := trace[..|trace| - 1], trace[|trace| - 1];
    if i < |before| {
      BlindStops(cfg, before, i);
      EndingSendsNothing(cfg, Run(cfg, before).value, step);
      assert forall j :: i < j < |before| ==> trace[j] == before[j];
    } else {
      BlindEnds(cfg, Run(cfg, before).value, step);
    }
  }

  /** MAIN RESULT. Without reconcile hooks an attempt of unknown outcome that is not replay-safe is the last:
      the call neither sends again nor asks the budget for a token. */
  lemma {:induction false} NoBlindResend(cfg: Config, trace: seq<Step>, i: nat, j: nat)
    requires Run(cfg, trace).Some? && cfg.reconcile == 0 && i < j < |trace| && IsBlind(trace[i])
    ensures !trace[j].Sent? && !trace[j].Budgeted?
  {
    BlindStops(cfg, trace, i);
  }

  /** The call's request and what the hooks make of it all have, or all lack, a repeatable method. */
  predicate VerbsAre(cfg: Config, trace: seq<Step>, repeatable: bool) {
    && Repeatable(cfg.original.verb) == repeatable
    && forall step :: step in trace && step.Ran? ==> Repeatable(step.edit.req.verb) == repeatable
  }

  lemma {:induction false} DraftVerb(cfg: Config, trace: seq<Step>, i: nat, repeatable: bool)
    requires i <= |trace| && VerbsAre(cfg, trace, repeatable)
    ensures Repeatable(Draft(cfg, trace[..i]).verb) == repeatable
  {
    if i > 0 {
      assert trace[..i][..i - 1] == trace[..i - 1] && trace[i - 1] in trace;
      DraftVerb(cfg, trace, i - 1, repeatable);
    }
  }

  lemma {:induction false} Unmarked(trace: seq<Step>, i: nat)
    requires i <= |trace| && forall step :: step in trace && step.Ran? ==> !step.edit.idempotent
    ensures !Marks(trace[..i]).0
  {
    if i > 0 {
      assert trace[..i][..i - 1] == trace[..i - 1] && trace[i - 1] in trace;
      Unmarked(trace, i - 1);
    }
  }

  /** MAIN RESULT. A POST, a PATCH, or any other method than the repeatable ones, that no hook declares
      idempotent and no hook can reconcile, is not sent again once its outcome is unknown. */
  lemma {:induction false} UnsafeMethodIsNotRepeated(cfg: Config, trace: seq<Step>, i: nat, j: nat)
    requires Run(cfg, trace).Some? && cfg.reconcile == 0 && VerbsAre(cfg, trace, false)
    requires forall step :: step in trace && step.Ran? ==> !step.edit.idempotent
    requires i < j < |trace| && IsReport(trace[i]) && trace[i].event.outcome.Unknown?
    ensures !trace[j].Sent? && !trace[j].Budgeted?
  {
    AttemptsAreToldAsLeft(cfg, trace, i);
    DraftVerb(cfg, trace, i, false);
    Unmarked(trace, i);
    NoBlindResend(cfg, trace, i, j);
  }

  /** A story of a classified attempt goes back to its event. */
  lemma {:induction false} ClassedIsReported(cfg: Config, trace: seq<Step>) returns (i: nat)
    requires Story.Told(cfg, trace).Classed?
    ensures i < |trace| && IsReport(trace[i])
    ensures var why := Story.Told(cfg, trace);
            trace[i].event.n == why.n && trace[i].event.outcome == why.outcome && trace[i].event.replaySafe == why.safe
  {
    var before := trace[..|trace| - 1];
    if Story.Told(cfg, before) == Story.Told(cfg, trace) {
      i := ClassedIsReported(cfg, before);
    } else {
      i := |before|;
    }
  }

  /** MAIN RESULT. A call ends as unsafe to retry only on an attempt of unknown outcome whose request had none
      of the repeatable methods and that no hook had declared idempotent; so a call that has only ever had a
      repeatable method never does. */
  lemma {:induction false} UnsafeEndsOnlyUnsafe(cfg: Config, trace: seq<Step>, s: State, f: Final) returns (i: nat)
    requires cfg.Normal() && Run(cfg, trace) == Some(s) && s.pc == Halted(Some(f)) && f.result == Unsafe
    ensures i < |trace| && IsReport(trace[i]) && trace[i].event.outcome.Unknown? && cfg.reconcile == 0
    ensures !Repeatable(Draft(cfg, trace[..i]).verb) && !Marks(trace[..i]).0
    ensures !VerbsAre(cfg, trace, true)
  {
    Labels.LabelTellsTheEnding(cfg, trace, s);
    i := ClassedIsReported(cfg, trace);
    AttemptsAreToldAsLeft(cfg, trace, i);
    if VerbsAre(cfg, trace, true) {
      DraftVerb(cfg, trace, i, true);
    }
  }
}
