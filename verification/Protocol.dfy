/** The protocol of one call, as a deterministic automaton over the steps of the engine.

    A step is one action of the engine together with the answer its environment gave: what the
    transport replied, what the hooks said and left behind, what the gate showed, whether a wait was
    cut short. `Next` says which step may come next and what state it leads to; a trace is a possible
    run exactly when `Run` accepts it. The environment is free to answer anything, so what holds of
    every accepted trace holds against every downstream, hook, gate and clock. */
module Protocol {
  import opened Base

  /** The configuration of a transport that the loop looks at; hook lists are given by their length. */
  datatype Config = Config(
    maxAttempts: int, attemptTimeout: int, maxRetryAfter: int,
    gated: bool, startWait: int, retryWait: int, releaseJitter: int,
    before: nat, after: nat, reconcile: nat, giveUp: nat,
    original: Request)
  {
    function Hooks(phase: Phase): nat {
      match phase
      case Before => before
      case After => after
      case Reconcile => reconcile
      case GiveUp => giveUp
    }

    function WaitLimit(place: Place): int {
      if place.AtStart? then startWait else retryWait
    }

    /** What the constructor and the gate policy's normalisation establish. */
    predicate Normal() {
      1 <= maxAttempts && 0 <= startWait && 0 <= retryWait && 0 <= releaseJitter
    }
  }

  /** The clean-up of the attempt limit and of the gate policy when a transport is made. */
  function Normalized(cfg: Config): (r: Config)
    ensures r.Normal()
    ensures r.startWait <= 0 <==> cfg.startWait <= 0
    ensures cfg.retryWait < 0 <==> r.retryWait == 0
    ensures cfg.releaseJitter < 0 <==> r.releaseJitter == 0
    ensures cfg.retryWait == 0 ==> r.retryWait == 30 * SECOND
    ensures cfg.releaseJitter == 0 ==> r.releaseJitter == SECOND
    ensures cfg.maxAttempts < 1 ==> r.maxAttempts == 1
    ensures cfg.maxAttempts >= 1 ==> r.maxAttempts == cfg.maxAttempts
    ensures cfg.startWait >= 0 ==> r.startWait == cfg.startWait
    ensures cfg.startWait < 0 ==> r.startWait == 0
    ensures cfg.retryWait > 0 ==> r.retryWait == cfg.retryWait
    ensures cfg.releaseJitter > 0 ==> r.releaseJitter == cfg.releaseJitter
    ensures r.(maxAttempts := cfg.maxAttempts, startWait := cfg.startWait,
               retryWait := cfg.retryWait, releaseJitter := cfg.releaseJitter) == cfg
  {
    cfg.(maxAttempts := if cfg.maxAttempts < 1 then 1 else cfg.maxAttempts,
         startWait := if cfg.startWait < 0 then 0 else cfg.startWait,
         retryWait := if cfg.retryWait == 0 then 30 * SECOND else if cfg.retryWait < 0 then 0 else cfg.retryWait,
         releaseJitter :=
           if cfg.releaseJitter == 0 then SECOND else if cfg.releaseJitter < 0 then 0 else cfg.releaseJitter)
  }

  /** How the body of the request can be produced for each attempt. */
  datatype Plan = NoBody | CallerRewinds | Buffered | OneShot | Broken(err: int)

  /** What the hooks of one phase left behind in the attempt and in the call. */
  datatype Edit = Edit(req: Request, outcome: Outcome, idempotent: bool, key: Option<string>)

  datatype Waking = Recovered | Expired | Ended

  datatype Step =
    | Emit(event: Event)
    | Prepared(plan: Plan)
    | Built(ok: bool)
    | Observed(unhealthy: bool)
    | Awaited(limit: int, took: int, waking: Waking)
    | Slept(asked: int, took: int, canceled: bool)
    | Ran(phase: Phase, verdicts: seq<Verdict>, edit: Edit)
    // `applied` is the server's side of the send: whether it carried the operation out.
    | Sent(req: Request, reply: Reply, ctxEnded: bool, applied: bool)
    | Classified(outcome: Outcome)
    | Reported(outcome: Outcome)
    | Refunded
    | Budgeted(granted: bool)
    | Chosen(backoff: int, retryAfter: Option<int>)
    | Released(n: nat)
    | Delivered(n: nat)

  datatype Pc =
    | Opening
    | Preparing
    | Building
    | StartChecking
    | Rejecting(place: Place)
    | Awaiting(place: Place)
    | Jittering(place: Place)
    | Admitting(place: Place)
    | Expiring(place: Place)
    | Running(phase: Phase)
    | Telling(phase: Phase, verdict: Verdict)
    | Sending
    | Losing
    | Classifying
    | Reporting
    | Logging(verdict: Verdict)
    | Refunding
    | Spending
    | Choosing
    | Announcing(delay: int, source: Source)
    | Draining(delay: int)
    | PauseChecking(delay: int)
    | Sleeping(delay: int)
    | Rechecking
    | Dropping(final: Final)
    | Handing(final: Final)
    | Leaving(final: Final)
    | Crashing
    | Halted(result: Option<Final>)

  /** What a call carries along. `n` counts the attempts built so far and `attempts` those sent; the
      fields from `req` on belong to the current attempt, whose response and cancel function are still
      to be disposed of while `live`. */
  datatype Data = Data(
    n: nat, attempts: nat, plan: Plan,
    history: seq<Record>, idempotent: bool, key: Option<string>,
    req: Request, reply: Option<Reply>, outcome: Outcome, reason: Option<Reason>, live: bool)
  {
    predicate ReplaySafe() {
      idempotent || IdempotentVerb(req.verb)
    }

    predicate Answered() {
      reply.Some? && reply.value.Answered?
    }

    /** A fresh attempt: a clone of the caller's request, and nothing sent yet. */
    function Fresh(original: Request): Data {
      this.(n := n + 1, req := original, reply := None, outcome := Success, reason := None, live := true)
    }

    function Edited(edit: Edit): Data {
      this.(req := edit.req, outcome := edit.outcome, idempotent := edit.idempotent, key := edit.key)
    }

    function Logged(): Data
      requires reply.Some?
    {
      this.(history := history + [Record(n, reply.value, outcome)])
    }
  }

  datatype State = State(pc: Pc, data: Data)

  function Init(cfg: Config): State {
    State(Opening, Data(0, 0, NoBody, [], false, None, cfg.original, None, Success, None, false))
  }

  /** The engine returns `f`, disposing of the current attempt first if that is still to be done. */
  function Drop(d: Data, f: Final): Pc {
    if d.live then Dropping(f) else Leaving(f)
  }

  /** The current attempt's own result is handed to the caller. */
  function Deliver(d: Data, result: Label): Pc
    requires d.reply.Some?
  {
    match d.reply.value
    case Failed(e) => Drop(d, Final(None, result, Some(SendError(e))))
    case Answered(_) => Handing(Final(Some(Received(d.n)), result, None))
  }

  function Stopped(v: Verdict, okLabel: Label): Final
    requires v.Succeed? || v.Fail?
  {
    match v
    case Succeed(None) => Final(None, HookAborted, Some(NilResponse))
    case Succeed(resp) => Final(resp, okLabel, None)
    case Fail(e) => Final(None, HookAborted, Some(HookError(e)))
  }

  /** A hook stopped the call. */
  function Finish(d: Data, v: Verdict, okLabel: Label): Pc
    requires v.Succeed? || v.Fail?
  {
    if d.live && d.Answered() && v == Succeed(Some(Received(d.n))) then Handing(Final(v.resp, okLabel, None))
    else Drop(d, Stopped(v, okLabel))
  }

  function CauseOf(d: Data): Cause
    requires d.reason.Some?
  {
    match d.reply
    case Some(Failed(e)) => Transport(e)
    case Some(Answered(code)) => LastStatus(code)
    case None => Because(d.reason.value)
  }

  /** Giving up once the hooks have not objected: an undrained response is handed back, otherwise the
      error tells the whole story. */
  function Surrender(d: Data): Pc
    requires d.reason.Some?
  {
    if d.live && d.Answered() then Handing(Final(Some(Received(d.n)), LabelFor(d.reason.value), None))
    else
      var err := ExhaustedError(d.attempts, d.history, d.reason.value, CauseOf(d));
      Drop(d, Final(None, LabelFor(d.reason.value), Some(err)))
  }

  /** The label under which a hook of the phase may supply the response. */
  function HookLabel(phase: Phase): Label {
    match phase
    case Before => ShortCircuit
    case After => ShortCircuit
    case Reconcile => Reconciled
    case GiveUp => Fallback
  }

  /** Where the call goes once the hooks of a phase have let it pass. */
  function Onward(d: Data, phase: Phase): Pc
    requires phase.GiveUp? ==> d.reason.Some?
  {
    match phase
    case Before => Sending
    case After => Logging(Continue)
    case Reconcile => Building
    case GiveUp => Surrender(d)
  }

  /** Where the call goes once the hooks of a phase have said `v`; the verdict of the After hooks waits
      until the attempt has been recorded. */
  function AfterPhase(d: Data, phase: Phase, v: Verdict): Pc
    requires !v.Panic? && (phase.GiveUp? ==> d.reason.Some?)
  {
    if v.Continue? then Onward(d, phase)
    else if phase.After? then Logging(v)
    else Finish(d, v, HookLabel(phase))
  }

  function ToPhase(cfg: Config, d: Data, phase: Phase): Pc
    requires phase.GiveUp? ==> d.reason.Some?
  {
    if cfg.Hooks(phase) == 0 then Onward(d, phase) else Running(phase)
  }

  function StopFor(cfg: Config, d: Data, reason: Reason): State {
    var d' := d.(reason := Some(reason));
    State(ToPhase(cfg, d', GiveUp), d')
  }

  /** The gate was seen unhealthy. */
  function Blocked(cfg: Config, place: Place): Pc {
    if cfg.WaitLimit(place) <= 0 then Rejecting(place) else Awaiting(place)
  }

  /** The wait between two attempts is over. */
  function AfterPause(cfg: Config, d: Data): Pc {
    if d.outcome.Unknown? then ToPhase(cfg, d, Reconcile) else Building
  }

  function Admitted(cfg: Config, d: Data, place: Place): Pc {
    if place.AtStart? then ToPhase(cfg, d, Before) else AfterPause(cfg, d)
  }

  /** The first attempt of a gated call looks at the gate before anything else. */
  function Started(cfg: Config, d: Data): Pc {
    if d.n == 1 && cfg.gated then StartChecking else ToPhase(cfg, d, Before)
  }

  /** Why an attempt with a retryable outcome may not be repeated, whatever the budget says. */
  function Obstacle(cfg: Config, d: Data): Option<Reason> {
    if d.n >= cfg.maxAttempts then Some(MaxAttempts)
    else if d.plan.OneShot? then Some(BodyNotReplayable)
    else if d.outcome.Unknown? && !d.ReplaySafe() && cfg.reconcile == 0 then Some(UnsafeToRetry)
    else None
  }

  /** The decision taken on an attempt that the hooks let stand. */
  function Decide(cfg: Config, d: Data): State
    requires d.reply.Some?
  {
    match d.outcome
    case Success => State(Refunding, d)
    case Fatal => State(Deliver(d, NonRetryable), d)
    case _ =>
      (match Obstacle(cfg, d)
       case Some(reason) => StopFor(cfg, d, reason)
       case None => State(Spending, d))
  }

  /** The wait before the next attempt: the backoff, or the server's Retry-After if that is longer. */
  function Choose(cfg: Config, d: Data, backoff: int, retryAfter: Option<int>): State {
    match retryAfter
    case Some(ra) =>
      if ra > cfg.maxRetryAfter then StopFor(cfg, d, RetryAfterTooLong)
      else if ra > backoff then State(Announcing(ra, FromRetryAfter), d)
      else State(Announcing(backoff, FromBackoff), d)
    case None => State(Announcing(backoff, FromBackoff), d)
  }

  /** Where the call goes once the current attempt has been released or delivered. */
  function Disposed(cfg: Config, pc: Pc): Pc {
    if pc.Draining? then if cfg.gated then PauseChecking(pc.delay) else Sleeping(pc.delay)
    else if pc.Dropping? || pc.Handing? then Leaving(pc.final)
    else pc
  }

  function Max(a: int, b: int): int {
    if a < b then b else a
  }

  /** The hooks of a phase run in order until one does not say Continue. */
  predicate Legal(verdicts: seq<Verdict>, count: nat) {
    && 0 < |verdicts| <= count
    && (forall i :: 0 <= i < |verdicts| - 1 ==> verdicts[i] == Continue)
    && (|verdicts| < count ==> verdicts[|verdicts| - 1] != Continue)
  }

  const STOPPED := Final(None, Canceled, Some(ContextEnded))

  /** The life of the current attempt: not built yet, built but not sent, sent but not yet recorded,
      recorded, released before a retry, or past the decision to stop. */
  datatype Stage = Unbuilt | Unsent | InFlight | Judged | Resting | Ending

  function PhaseStage(phase: Phase): Stage {
    match phase
    case Before => Unsent
    case After => InFlight
    case Reconcile => Resting
    case GiveUp => Ending
  }

  function StageOf(pc: Pc): Stage {
    if pc.Opening? || pc.Preparing? || pc.Building? then Unbuilt
    else if pc.Running? || pc.Telling? then PhaseStage(pc.phase)
    else if pc.Rejecting? || pc.Awaiting? || pc.Jittering? || pc.Admitting? || pc.Expiring? then
      if pc.place.AtStart? then Unsent else Resting
    else if pc.StartChecking? || pc.Sending? then Unsent
    else if pc.Losing? || pc.Classifying? || pc.Reporting? || pc.Logging? then InFlight
    else if pc.Refunding? || pc.Spending? || pc.Choosing? || pc.Announcing? || pc.Draining? then Judged
    else if pc.PauseChecking? || pc.Sleeping? || pc.Rechecking? then Resting
    else Ending
  }

  /** The hooks of a phase run, then the observer hears about it. */
  function NextPhase(cfg: Config, s: State, phase: Phase, step: Step): Option<State>
    requires s.pc == Running(phase) || (s.pc.Telling? && s.pc.phase == phase)
  {
    var d := s.data;
    if s.pc.Running? then
      if !step.Ran? || step.phase != phase || !Legal(step.verdicts, cfg.Hooks(phase)) then None
      else
        var v := step.verdicts[|step.verdicts| - 1];
        Some(State(if v.Panic? then Crashing else Telling(phase, v), d.Edited(step.edit)))
    else
      var v := s.pc.verdict;
      if v.Panic? || (phase.GiveUp? && d.reason == None) || step != Emit(HookDone(d.n, phase, v)) then None
      else Some(State(AfterPhase(d, phase, v), d))
  }

  /** What follows once the gate has been seen unhealthy. */
  function NextGate(cfg: Config, s: State, p: Place, step: Step): Option<State> {
    var d := s.data;
    if s.pc.Rejecting? then
      if step == Emit(Gate(p, Rejected)) then Some(StopFor(cfg, d, DownstreamDown)) else None
    else if s.pc.Awaiting? then
      if !step.Awaited? || step.limit != cfg.WaitLimit(p) || !(0 <= step.took <= step.limit) then None
      else
        match step.waking
        case Recovered => Some(State(if cfg.releaseJitter > 0 then Jittering(p) else Admitting(p), d))
        case Expired => Some(State(Expiring(p), d))
        case Ended => Some(State(Drop(d, STOPPED), d))
    else if s.pc.Jittering? then
      if !step.Slept? || !(0 <= step.asked <= cfg.releaseJitter) || !(0 <= step.took <= step.asked) then None
      else Some(State(if step.canceled then Drop(d, STOPPED) else Admitting(p), d))
    else if s.pc.Admitting? then
      if step == Emit(Gate(p, Waited)) then Some(State(Admitted(cfg, d, p), d)) else None
    else if s.pc.Expiring? then
      if step == Emit(Gate(p, TimedOut)) then Some(StopFor(cfg, d, DownstreamDown)) else None
    else None
  }

  function NextUnbuilt(cfg: Config, s: State, step: Step): Option<State> {
    var d := s.data;
    if s.pc.Opening? then
      if step == Emit(CallStart) then Some(State(Preparing, d)) else None
    else if s.pc.Preparing? then
      if !step.Prepared? then None
      else if step.plan.Broken? then
        Some(State(Drop(d, Final(None, BodyFailed, Some(BodyError(step.plan.err)))), d.(plan := step.plan)))
      else Some(State(Building, d.(plan := step.plan)))
    else if s.pc.Building? then
      if !step.Built? || (!step.ok && !d.plan.CallerRewinds?) then None
      else if !step.ok then Some(State(Drop(d, Final(None, BodyFailed, Some(BodyError(0)))), d))
      else Some(State(Started(cfg, d.Fresh(cfg.original)), d.Fresh(cfg.original)))
    else None
  }

  function NextUnsent(cfg: Config, s: State, step: Step): Option<State>
    requires StageOf(s.pc) == Unsent
  {
    var d := s.data;
    if s.pc.StartChecking? then
      if !step.Observed? then None
      else Some(State(if step.unhealthy then Blocked(cfg, AtStart) else ToPhase(cfg, d, Before), d))
    else if s.pc.Running? || s.pc.Telling? then NextPhase(cfg, s, Before, step)
    else if s.pc.Sending? then
      if !step.Sent? || step.req != d.req then None
      else
        var d' := d.(attempts := d.attempts + 1, reply := Some(step.reply));
        if step.reply.Failed? && step.ctxEnded then Some(State(Losing, d'.(outcome := Fatal)))
        else Some(State(Classifying, d'))
    else NextGate(cfg, s, AtStart, step)
  }

  function NextInFlight(cfg: Config, s: State, step: Step): Option<State>
    requires StageOf(s.pc) == InFlight
  {
    var d := s.data;
    if s.pc.Losing? then
      if d.reply == None || d.reply.value.Answered? then None
      else if step != Emit(AttemptDone(d.n, d.reply.value, d.outcome, d.ReplaySafe())) then None
      else Some(State(Drop(d, Final(None, Canceled, Some(SendError(d.reply.value.err)))), d))
    else if s.pc.Classifying? then
      if !step.Classified? then None
      else
        var d' := d.(outcome := step.outcome);
        Some(State(if cfg.gated then Reporting else ToPhase(cfg, d', After), d'))
    else if s.pc.Reporting? then
      if step == Reported(d.outcome) then Some(State(ToPhase(cfg, d, After), d)) else None
    else if s.pc.Running? || s.pc.Telling? then NextPhase(cfg, s, After, step)
    else
      var v := s.pc.verdict;
      if v.Panic? || d.reply == None then None
      else if step != Emit(AttemptDone(d.n, d.reply.value, d.outcome, d.ReplaySafe())) then None
      else if v.Continue? then Some(Decide(cfg, d.Logged()))
      else Some(State(Finish(d.Logged(), v, ShortCircuit), d.Logged()))
  }

  function NextJudged(cfg: Config, s: State, step: Step): Option<State> {
    var d := s.data;
    if s.pc.Refunding? then
      if step == Refunded && d.reply.Some? then Some(State(Deliver(d, Succeeded), d)) else None
    else if s.pc.Spending? then
      if !step.Budgeted? then None
      else Some(if step.granted then State(Choosing, d) else StopFor(cfg, d, NoBudget))
    else if s.pc.Choosing? then
      if !step.Chosen? || (step.retryAfter.Some? && !d.Answered()) then None
      else Some(Choose(cfg, d, step.backoff, step.retryAfter))
    else if s.pc.Announcing? then
      if step == Emit(Wait(d.n, s.pc.delay, s.pc.source)) then Some(State(Draining(s.pc.delay), d)) else None
    else if s.pc.Draining? then
      if step == Released(d.n) && d.live then Some(State(Disposed(cfg, s.pc), d.(live := false))) else None
    else None
  }

  function NextResting(cfg: Config, s: State, step: Step): Option<State>
    requires StageOf(s.pc) == Resting
  {
    var d := s.data;
    if s.pc.PauseChecking? then
      if !step.Observed? then None
      else Some(State(if step.unhealthy then Blocked(cfg, AtRetry) else Sleeping(s.pc.delay), d))
    else if s.pc.Sleeping? then
      if !step.Slept? || step.asked != s.pc.delay || !(0 <= step.took <= Max(0, s.pc.delay)) then None
      else if step.canceled then Some(State(Drop(d, STOPPED), d))
      else Some(State(if cfg.gated then Rechecking else AfterPause(cfg, d), d))
    else if s.pc.Rechecking? then
      if !step.Observed? then None
      else Some(State(if step.unhealthy then Blocked(cfg, AtRetry) else AfterPause(cfg, d), d))
    else if s.pc.Running? || s.pc.Telling? then NextPhase(cfg, s, Reconcile, step)
    else NextGate(cfg, s, AtRetry, step)
  }

  function NextEnding(cfg: Config, s: State, step: Step): Option<State>
    requires StageOf(s.pc) == Ending
  {
    var d := s.data;
    if s.pc.Running? || s.pc.Telling? then NextPhase(cfg, s, GiveUp, step)
    else if s.pc.Dropping? then
      if step == Released(d.n) && d.live then Some(State(Disposed(cfg, s.pc), d.(live := false))) else None
    else if s.pc.Handing? then
      if step == Delivered(d.n) && d.live then Some(State(Disposed(cfg, s.pc), d.(live := false))) else None
    else if s.pc.Leaving? then
      if step == Emit(CallDone(d.attempts, s.pc.final.result)) then Some(State(Halted(Some(s.pc.final)), d)) else None
    else if s.pc.Crashing? then
      if step == Emit(CallDone(d.attempts, Panicked)) then Some(State(Halted(None), d)) else None
    else None
  }

  /** The step after which the call is in the given state, if it may come next. */
  function Next(cfg: Config, s: State, step: Step): Option<State> {
    match StageOf(s.pc)
    case Unbuilt => NextUnbuilt(cfg, s, step)
    case Unsent => NextUnsent(cfg, s, step)
    case InFlight => NextInFlight(cfg, s, step)
    case Judged => NextJudged(cfg, s, step)
    case Resting => NextResting(cfg, s, step)
    case Ending => NextEnding(cfg, s, step)
  }

  /** The state a trace leads to, if the protocol allows the trace. */
  function Run(cfg: Config, trace: seq<Step>): Option<State> {
    if trace == [] then Some(Init(cfg))
    else
      var before := Run(cfg, trace[..|trace| - 1]);
      if before.None? then None else Next(cfg, before.value, trace[|trace| - 1])
  }

  lemma RunSnoc(cfg: Config, trace: seq<Step>, step: Step)
    requires Run(cfg, trace).Some?
    ensures Run(cfg, trace + [step]) == Next(cfg, Run(cfg, trace).value, step)
  {
    assert (trace + [step])[..|trace|] == trace;
  }
}
