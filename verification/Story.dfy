/** The story of a run: the last thing in it that decided anything, and the result that it calls for. */
module Story {
  import opened Base
  import opened Protocol

  datatype Why =
    | Nothing
    | BodyBroken(err: int)
    | HookStop(phase: Phase, verdict: Verdict)
    | Abandoned(err: int)
    | Classed(n: nat, outcome: Outcome, safe: bool)
    | Refused
    | TooFarOff(retryAfter: int)
    | GateShut(place: Place)
    | CallerGone
  {
    function Then(cfg: Config, step: Step): Why {
      match step
      case Prepared(plan) => if plan.Broken? then BodyBroken(plan.err) else this
      case Built(ok) => if ok then this else BodyBroken(0)
      case Ran(phase, verdicts, _) =>
        if verdicts == [] || verdicts[|verdicts| - 1].Continue? then this
        else HookStop(phase, verdicts[|verdicts| - 1])
      case Sent(_, reply, ctxEnded, _) => if reply.Failed? && ctxEnded then Abandoned(reply.err) else Nothing
      case Emit(e) =>
        // What the After hooks said, and that the caller is gone, is decided before the attempt is reported.
        if e.AttemptDone? && this.Nothing? then Classed(e.n, e.outcome, e.replaySafe)
        else if e.Gate? && !e.answer.Waited? && !this.CallerGone? then GateShut(e.place)
        else this
      case Budgeted(granted) => if granted then this else Refused
      case Chosen(_, retryAfter) =>
        if retryAfter.Some? && retryAfter.value > cfg.maxRetryAfter then TooFarOff(retryAfter.value) else this
      case Awaited(_, _, waking) => if waking.Ended? then CallerGone else this
      case Slept(_, _, canceled) => if canceled then CallerGone else this
      case _ => this
    }
  }

  function Told(cfg: Config, trace: seq<Step>): Why {
    if trace == [] then Nothing else Told(cfg, trace[..|trace| - 1]).Then(cfg, trace[|trace| - 1])
  }

  /** Why the engine gives up after such a story, if it does. */
  function ReasonTold(cfg: Config, why: Why, oneShot: bool): Option<Reason> {
    match why
    case Refused => Some(NoBudget)
    case TooFarOff(_) => Some(RetryAfterTooLong)
    case GateShut(_) => Some(DownstreamDown)
    case Classed(n, o, safe) =>
      if o.Success? || o.Fatal? then None
      else if n >= cfg.maxAttempts then Some(MaxAttempts)
      else if oneShot then Some(BodyNotReplayable)
      else if o.Unknown? && !safe && cfg.reconcile == 0 then Some(UnsafeToRetry)
      else None
    case _ => None
  }

  /** The story of a call that handed over, or gave up on, an attempt's own result. */
  predicate GaveUp(cfg: Config, why: Why, oneShot: bool) {
    ReasonTold(cfg, why, oneShot).Some?
  }

  /** The result of an attempt as the transport below gave it. */
  function OwnResult(d: Data, result: Label): Option<Final> {
    match d.reply
    case None => None
    case Some(Answered(_)) => Some(Final(Some(Received(d.n)), result, None))
    case Some(Failed(e)) => Some(Final(None, result, Some(SendError(e))))
  }

  /** What is left of a call that gave up: its last response if that is still open, else the error with
      the whole account. */
  function Remains(d: Data, reason: Reason, open: bool): Final {
    if open && d.Answered() then Final(Some(Received(d.n)), LabelFor(reason), None)
    else
      var cause := match d.reply
        case Some(Failed(e)) => Transport(e)
        case Some(Answered(code)) => LastStatus(code)
        case None => Because(reason);
      Final(None, LabelFor(reason), Some(ExhaustedError(d.attempts, d.history, reason, cause)))
  }

  /** What a hook that stopped the call makes of it. */
  function HookResult(phase: Phase, v: Verdict): Option<Final> {
    match v
    case Continue => None
    case Panic => None
    case Fail(e) => Some(Final(None, HookAborted, Some(HookError(e))))
    case Succeed(resp) =>
      if resp == None then Some(Final(None, HookAborted, Some(NilResponse)))
      else Some(Final(resp, match phase
                            case Before => ShortCircuit
                            case After => ShortCircuit
                            case Reconcile => Reconciled
                            case GiveUp => Fallback, None))
  }

  /** The whole result that a story calls for. None if a hook panicked, or if no call ends like that. */
  function Due(cfg: Config, why: Why, d: Data): Option<Final> {
    match why
    case BodyBroken(e) => Some(Final(None, BodyFailed, Some(BodyError(e))))
    case HookStop(phase, v) => HookResult(phase, v)
    case Abandoned(e) => Some(Final(None, Canceled, Some(SendError(e))))
    case CallerGone => Some(Final(None, Canceled, Some(ContextEnded)))
    case _ =>
      var reason := ReasonTold(cfg, why, d.plan.OneShot?);
      if reason.Some? then Some(Remains(d, reason.value, !why.GateShut?))
      else if why.Classed? && why.outcome.Success? then OwnResult(d, Succeeded)
      else if why.Classed? && why.outcome.Fatal? then OwnResult(d, NonRetryable)
      else None
  }
}
