/** The vocabulary shared by every part of the model: outcomes, verdicts, requests, the records
    a call leaves behind and the events it emits. */
module Base {

  datatype Option<+T> = None | Some(value: T)

  /** Durations are in nanoseconds. */
  const SECOND := 1_000_000_000

  type Byte = b: int | 0 <= b < 256

  /** How much of `length` bytes there is up to `limit`. */
  function Clip(limit: int, length: nat): (r: nat)
    ensures r <= length && (limit >= length ==> r == length)
    ensures 0 <= limit <= length ==> r == limit
    ensures limit <= 0 ==> r == 0
  {
    if limit < 0 then 0 else if limit < length then limit else length
  }

  /** How one attempt ended, as far as repeating it is concerned. */
  datatype Outcome = Success | NotApplied | Unknown | Fatal

  /** The four hook phases of a call. */
  datatype Phase = Before | After | Reconcile | GiveUp

  /** Why the engine stopped without a success. */
  datatype Reason =
    | MaxAttempts | UnsafeToRetry | BodyNotReplayable | NoBudget | RetryAfterTooLong | DownstreamDown

  /** The closed set of final result labels. */
  datatype Label =
    | Succeeded | NonRetryable | Exhausted | Unsafe | NotReplayable | OverBudget | TooLong
    | Reconciled | Fallback | ShortCircuit | HookAborted | Canceled | BodyFailed | Panicked | Unhealthy

  function LabelFor(reason: Reason): Label {
    match reason
    case MaxAttempts => Exhausted
    case UnsafeToRetry => Unsafe
    case BodyNotReplayable => NotReplayable
    case NoBudget => OverBudget
    case RetryAfterTooLong => TooLong
    case DownstreamDown => Unhealthy
  }

  /** What the transport below returned for one send. */
  datatype Reply = Answered(status: int) | Failed(err: int)

  /** A response object: the one attempt `n` received, or one a hook made. */
  datatype Response = Received(n: nat) | Made(id: int)

  /** What a hook returns; `Panic` stands for a hook that panics. */
  datatype Verdict = Continue | Succeed(resp: Option<Response>) | Fail(err: int) | Panic

  datatype Request = Request(verb: string, host: string, headers: map<string, string>)

  /** Methods whose repetition has no further effect (section 9.2.2 of RFC 9110); "" means GET. */
  predicate IdempotentVerb(verb: string) {
    verb in {"", "GET", "HEAD", "OPTIONS", "TRACE", "PUT", "DELETE"}
  }

  /** One finished attempt as kept in the call's history. */
  datatype Record = Record(n: nat, reply: Reply, outcome: Outcome)

  datatype Cause = Transport(err: int) | LastStatus(status: int) | Because(reason: Reason)

  datatype Error =
    | BodyError(err: int)
    | ContextEnded
    | SendError(err: int)
    | HookError(err: int)
    | NilResponse
    | ExhaustedError(attempts: nat, history: seq<Record>, reason: Reason, cause: Cause)

  /** What a call hands back: a response or an error, and the label reported for it. */
  datatype Final = Final(resp: Option<Response>, result: Label, err: Option<Error>)

  datatype Place = AtStart | AtRetry
  datatype GateResult = Rejected | Waited | TimedOut
  datatype Source = FromBackoff | FromRetryAfter

  datatype Event =
    | CallStart
    | AttemptDone(n: nat, reply: Reply, outcome: Outcome, replaySafe: bool)
    | Wait(n: nat, delay: int, source: Source)
    | HookDone(n: nat, phase: Phase, verdict: Verdict)
    | Gate(place: Place, answer: GateResult)
    | CallDone(attempts: nat, result: Label)
}
