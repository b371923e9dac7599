/** The engine itself: the attempt loop and its helpers, as code that updates a call and its attempts.
    Every action on the outside world goes through a `World`, which answers as it likes and keeps the
    trace; each method is proved to do exactly what the protocol prescribes next. */
module Engine {
  import opened Base
  import opened Protocol
  import opened Story

  /** One step longer. */
  predicate Adds(before: seq<Step>, after: seq<Step>) {
    |after| == |before| + 1 && after[..|before|] == before
  }

  /** What one hook said, and what it left behind in the attempt and in the call. */
  datatype Said = Said(verdict: Verdict, edit: Edit)

  function Verdicts(said: seq<Said>): seq<Verdict> {
    seq(|said|, i requires 0 <= i < |said| => said[i].verdict)
  }

  /** The step tells what the hooks said, one after the other, and what the last of them left behind. */
  predicate Relays(step: Step, said: seq<Said>) {
    && step.Ran? && |step.verdicts| == |said| > 0
    && (forall i :: 0 <= i < |said| ==> step.verdicts[i] == said[i].verdict)
    && step.edit == said[|said| - 1].edit
  }

  /** From position `k` on, at most `count` hooks have spoken in turn, and none after one that did not say
      Continue. */
  predicate InTurn(heard: seq<Said>, k: nat, count: nat) {
    && k < |heard| <= k + count
    && (forall h :: k <= h < |heard| - 1 ==> heard[h].verdict == Continue)
    && (|heard| < k + count ==> heard[|heard| - 1].verdict != Continue)
  }

  lemma InTurnIsLegal(heard: seq<Said>, k: nat, count: nat, phase: Phase)
    requires InTurn(heard, k, count)
    ensures Legal(Verdicts(heard[k..]), count)
    ensures Verdicts(heard[k..])[|heard| - k - 1] == heard[|heard| - 1].verdict
    ensures Relays(Ran(phase, Verdicts(heard[k..]), heard[|heard| - 1].edit), heard[k..])
  {
    assert forall i :: 0 <= i < |heard| - k ==> heard[k..][i] == heard[k + i];
  }

  /** The environment of one call. Its methods give arbitrary answers and record them; only an action
      that the protocol allows can be recorded. `path` holds the states passed through. */
  class World {
    ghost const cfg: Config
    ghost var trace: seq<Step>
    ghost var path: seq<State>
    ghost var st: State
    /** All that the hooks have said; the first `told` sayings are in the trace. */
    ghost var heard: seq<Said>
    ghost var told: nat

    ghost predicate Sound()
      reads this
    {
      && |path| == |trace| + 1 && path[0] == Init(cfg) && path[|trace|] == st
      && (forall i {:trigger trace[i]} :: 0 <= i < |trace| ==> Next(cfg, path[i], trace[i]) == Some(path[i + 1]))
      && told <= |heard|
    }

    /** Between the phases nothing that a hook has said is left untold. */
    ghost predicate Valid()
      reads this
    {
      Sound() && told == |heard|
    }

    constructor (ghost cfg: Config)
      ensures Valid() && this.cfg == cfg && trace == [] && st == Init(cfg)
    {
      this.cfg, trace, path, st := cfg, [], [Init(cfg)], Init(cfg);
      heard, told := [], 0;
    }

    ghost method Log(step: Step)
      requires Valid() && Next(cfg, st, step).Some? && !step.Ran?
      modifies this
      ensures Valid() && trace == old(trace) + [step] && Some(st) == Next(cfg, old(st), step)
      ensures heard == old(heard)
    {
      st := Next(cfg, st, step).value;
      trace, path := trace + [step], path + [st];
    }

    /** A hook has spoken. */
    ghost method Hear(said: Said)
      requires Sound()
      modifies `heard
      ensures Sound() && heard == old(heard) + [said]
    {
      heard := heard + [said];
    }

    /** What has been recorded is a run of the protocol. */
    lemma Recorded(k: nat)
      requires Valid() && k <= |trace|
      ensures Run(cfg, trace[..k]) == Some(path[k])
    {
      if k > 0 {
        Recorded(k - 1);
        assert trace[..k][..k - 1] == trace[..k - 1];
      }
    }

    method EmitStart()
      requires Valid() && st.pc == Opening
      modifies this
      ensures Valid() && st == State(Preparing, old(st).data)
    {
      Log(Emit(CallStart));
    }

    method EmitGate(place: Place, answer: GateResult)
      requires Valid()
      requires st.pc == match answer
                        case Rejected => Rejecting(place)
                        case Waited => Admitting(place)
                        case TimedOut => Expiring(place)
      modifies this
      ensures Valid()
      ensures st == if answer.Waited? then State(Admitted(cfg, old(st).data, place), old(st).data)
                    else StopFor(cfg, old(st).data, DownstreamDown)
      ensures trace == old(trace) + [Emit(Gate(place, answer))]
    {
      Log(Emit(Gate(place, answer)));
    }

    method EmitHook(n: nat, phase: Phase, v: Verdict)
      requires Valid() && st.pc == Telling(phase, v) && st.data.n == n
      requires !v.Panic? && (phase.GiveUp? ==> st.data.reason.Some?)
      modifies this
      ensures Valid() && st == State(AfterPhase(old(st).data, phase, v), old(st).data)
      ensures trace == old(trace) + [Emit(HookDone(n, phase, v))]
    {
      Log(Emit(HookDone(n, phase, v)));
    }

    method EmitLost(n: nat, reply: Reply, outcome: Outcome, replaySafe: bool)
      requires Valid() && st.pc == Losing && st.data.n == n && st.data.reply == Some(reply) && reply.Failed?
      requires outcome == st.data.outcome && replaySafe == st.data.ReplaySafe()
      modifies this
      ensures Valid()
      ensures st == State(Drop(old(st).data, Final(None, Canceled, Some(SendError(reply.err)))), old(st).data)
      ensures trace == old(trace) + [Emit(AttemptDone(n, reply, outcome, replaySafe))]
    {
      Log(Emit(AttemptDone(n, reply, outcome, replaySafe)));
    }

    method EmitAttempt(n: nat, reply: Reply, outcome: Outcome, replaySafe: bool)
      requires Valid() && st.pc.Logging? && !st.pc.verdict.Panic? && st.data.n == n && st.data.reply == Some(reply)
      requires outcome == st.data.outcome && replaySafe == st.data.ReplaySafe()
      modifies this
      ensures Valid()
      ensures var d := old(st).data.Logged();
              var v := old(st).pc.verdict;
              st == if v.Continue? then Decide(cfg, d) else State(Protocol.Finish(d, v, ShortCircuit), d)
      ensures trace == old(trace) + [Emit(AttemptDone(n, reply, outcome, replaySafe))]
    {
      Log(Emit(AttemptDone(n, reply, outcome, replaySafe)));
    }

    method EmitWait(n: nat, delay: int, source: Source)
      requires Valid() && st.pc == Announcing(delay, source) && st.data.n == n
      modifies this
      ensures Valid() && st == State(Draining(delay), old(st).data)
      ensures trace == old(trace) + [Emit(Wait(n, delay, source))]
    {
      Log(Emit(Wait(n, delay, source)));
    }

    method EmitDone(attempts: nat, result: Label)
      requires Valid() && st.data.attempts == attempts
      requires (st.pc == Crashing && result == Panicked) || (st.pc.Leaving? && st.pc.final.result == result)
      modifies this
      ensures Valid()
      ensures st == State(Halted(if old(st).pc.Leaving? then Some(old(st).pc.final) else None), old(st).data)
    {
      Log(Emit(CallDone(attempts, result)));
    }

    method PrepareBody() returns (plan: Plan)
      requires Valid() && st.pc == Preparing
      modifies this
      ensures Valid()
      ensures st == if plan.Broken?
                    then State(Drop(old(st).data, Final(None, BodyFailed, Some(BodyError(plan.err)))),
                               old(st).data.(plan := plan))
                    else State(Building, old(st).data.(plan := plan))
    {
      plan := *;
      Log(Prepared(plan));
    }

    /** Only a caller-supplied GetBody can fail. */
    method BuildBody(plan: Plan) returns (ok: bool)
      requires Valid() && st.pc == Building && st.data.plan == plan
      modifies this
      ensures Valid()
      ensures !ok ==> st == State(Drop(old(st).data, Final(None, BodyFailed, Some(BodyError(0)))), old(st).data)
      ensures ok ==> var d := old(st).data.Fresh(cfg.original); st == State(Started(cfg, d), d)
    {
      ok := true;
      if plan.CallerRewinds? {
        ok := *;
      }
      Log(Built(ok));
    }

    method Unhealthy() returns (yes: bool)
      requires Valid() && (st.pc.StartChecking? || st.pc.PauseChecking? || st.pc.Rechecking?)
      modifies this
      ensures Valid() && st.data == old(st).data
      ensures yes ==> st.pc == Blocked(cfg, if old(st).pc.StartChecking? then AtStart else AtRetry)
      ensures !yes ==> st.pc == match old(st).pc
                                case StartChecking => ToPhase(cfg, st.data, Before)
                                case PauseChecking(d) => Sleeping(d)
                                case _ => AfterPause(cfg, st.data)
      ensures trace == old(trace) + [Observed(yes)]
    {
      yes := *;
      Log(Observed(yes));
    }

    method WaitHealthy(limit: int) returns (waking: Waking)
      requires Valid() && st.pc.Awaiting? && 0 <= limit == cfg.WaitLimit(st.pc.place)
      modifies this
      ensures Valid() && st.data == old(st).data
      ensures var p := old(st).pc.place;
              st.pc == match waking
                       case Recovered => if cfg.releaseJitter > 0 then Jittering(p) else Admitting(p)
                       case Expired => Expiring(p)
                       case Ended => Drop(st.data, STOPPED)
      ensures Adds(old(trace), trace) && trace[|old(trace)|].Awaited?
      ensures trace[|old(trace)|].limit == limit && trace[|old(trace)|].waking == waking
    {
      waking := *;
      var took :| 0 <= took <= limit;
      Log(Awaited(limit, took, waking));
    }

    /** A sleep never takes longer than asked, and may be cut short by the caller's context. */
    method Sleep(asked: int) returns (canceled: bool)
      requires Valid()
      requires st.pc == Sleeping(asked) || (st.pc.Jittering? && 0 <= asked <= cfg.releaseJitter)
      modifies this
      ensures Valid() && st.data == old(st).data
      ensures st.pc == if canceled then Drop(st.data, STOPPED)
                       else if old(st).pc.Jittering? then Admitting(old(st).pc.place)
                       else if cfg.gated then Rechecking else AfterPause(cfg, st.data)
      ensures Adds(old(trace), trace) && trace[|old(trace)|].Slept?
      ensures trace[|old(trace)|].asked == asked && trace[|old(trace)|].canceled == canceled
    {
      canceled := *;
      var limit := Max(0, asked);
      var took :| 0 <= took <= limit;
      Log(Slept(asked, took, canceled));
    }

    /** Records what the hooks of a phase said and left behind, as it was heard. */
    ghost method LogHooks(phase: Phase)
      requires Sound() && told < |heard| && st.pc == Running(phase)
      requires Legal(Verdicts(heard[told..]), cfg.Hooks(phase))
      modifies this
      ensures Valid() && heard == old(heard) && st.data == old(st).data.Edited(heard[|heard| - 1].edit)
      ensures var v := heard[|heard| - 1].verdict; st.pc == if v.Panic? then Crashing else Telling(phase, v)
      ensures trace == old(trace) + [Ran(phase, Verdicts(heard[old(told)..]), heard[|heard| - 1].edit)]
    {
      var step := Ran(phase, Verdicts(heard[told..]), heard[|heard| - 1].edit);
      st := Next(cfg, st, step).value;
      trace, path, told := trace + [step], path + [st], |heard|;
    }

    method Send(req: Request) returns (reply: Reply, ctxEnded: bool)
      requires Valid() && st.pc == Sending && req == st.data.req
      modifies this
      ensures Valid()
      ensures var sent := old(st).data.(attempts := old(st).data.attempts + 1, reply := Some(reply));
              st == if reply.Failed? && ctxEnded then State(Losing, sent.(outcome := Fatal))
                    else State(Classifying, sent)
      ensures Adds(old(trace), trace) && trace[|old(trace)|].Sent? && trace[|old(trace)|].req == req
      ensures trace[|old(trace)|].reply == reply && trace[|old(trace)|].ctxEnded == ctxEnded
    {
      reply, ctxEnded := *, *;
      var applied: bool := *;
      Log(Sent(req, reply, ctxEnded, applied));
    }

    method Classify() returns (outcome: Outcome)
      requires Valid() && st.pc == Classifying
      modifies this
      ensures Valid() && st.data == old(st).data.(outcome := outcome)
      ensures st.pc == if cfg.gated then Reporting else ToPhase(cfg, st.data, After)
      ensures trace == old(trace) + [Classified(outcome)]
    {
      outcome := *;
      Log(Classified(outcome));
    }

    method Report(outcome: Outcome)
      requires Valid() && st.pc == Reporting && st.data.outcome == outcome
      modifies this
      ensures Valid() && st == State(ToPhase(cfg, old(st).data, After), old(st).data)
      ensures trace == old(trace) + [Reported(outcome)]
    {
      Log(Reported(outcome));
    }

    method Refund()
      requires Valid() && st.pc == Refunding && st.data.reply.Some?
      modifies this
      ensures Valid() && st == State(Protocol.Deliver(old(st).data, Succeeded), old(st).data)
      ensures trace == old(trace) + [Refunded]
    {
      Log(Refunded);
    }

    method Allow() returns (granted: bool)
      requires Valid() && st.pc == Spending
      modifies this
      ensures Valid()
      ensures st == if granted then State(Choosing, old(st).data) else StopFor(cfg, old(st).data, NoBudget)
      ensures trace == old(trace) + [Budgeted(granted)]
    {
      granted := *;
      Log(Budgeted(granted));
    }

    method Backoff(reply: Reply) returns (delay: int, retryAfter: Option<int>)
      requires Valid() && st.pc == Choosing && st.data.reply == Some(reply)
      modifies this
      ensures Valid() && st == Choose(cfg, old(st).data, delay, retryAfter)
      ensures trace == old(trace) + [Chosen(delay, retryAfter)]
    {
      delay, retryAfter := *, None;
      if reply.Answered? {
        retryAfter := *;
      }
      Log(Chosen(delay, retryAfter));
    }

    ghost method LogDisposal(n: nat, delivered: bool)
      requires Valid() && st.data.n == n && st.data.live
      requires if delivered then st.pc.Handing? else st.pc.Dropping? || st.pc.Draining?
      modifies this
      ensures Valid() && st == State(Disposed(cfg, old(st).pc), old(st).data.(live := false))
      ensures trace == old(trace) + [if delivered then Delivered(n) else Released(n)]
    {
      Log(if delivered then Delivered(n) else Released(n));
    }
  }

  /** The state of one logical request, shared by its attempts. */
  class Call {
    const original: Request
    var history: seq<Record>
    var idempotent: bool
    var key: Option<string>
    var attempts: nat

    constructor (original: Request)
      ensures this.original == original && history == [] && !idempotent && key == None && attempts == 0
    {
      this.original := original;
      history, idempotent, key, attempts := [], false, None, 0;
    }
  }

  /** One try inside a call. `bodyClosed` and `ctxReleased` say what has become of the response body and
      of the per-attempt context; `tied` that closing the body will release the context. */
  class Attempt {
    const n: nat
    var req: Request
    var reply: Option<Reply>
    var outcome: Outcome
    var reason: Option<Reason>
    var cancelable: bool
    var done: bool
    var bodyClosed: bool
    var ctxReleased: bool
    var tied: bool

    constructor (n: nat, req: Request)
      ensures this.n == n && this.req == req && reply == None && outcome == Success && reason == None
      ensures !cancelable && !done && Valid()
    {
      this.n, this.req := n, req;
      reply, outcome, reason, cancelable, done := None, Success, None, false, false;
      bodyClosed, ctxReleased, tied := false, false, false;
    }

    predicate HasResponse()
      reads this
    {
      reply.Some? && reply.value.Answered?
    }

    /** The response and the context are untouched until the attempt is done. Then either both have
        been released, or the response is with the caller and releases the context when closed. */
    ghost predicate Valid()
      reads this
    {
      if !done then !bodyClosed && !ctxReleased && !tied
      else
        || (bodyClosed == HasResponse() && ctxReleased == cancelable && !tied)
        || (HasResponse() && !bodyClosed && !ctxReleased && tied == cancelable)
    }

    predicate ReplaySafe(call: Call)
      reads this, call
    {
      call.idempotent || IdempotentVerb(req.verb)
    }

    /** Releases the response and the context, once. */
    method Discard(w: World)
      requires Valid() && w.Valid() && w.st.data.n == n && w.st.data.live == !done
      requires !done ==> w.st.pc.Dropping? || w.st.pc.Draining?
      modifies this`done, this`bodyClosed, this`ctxReleased, w
      ensures Valid() && w.Valid() && done
      ensures old(done) ==> unchanged(this) && w.trace == old(w.trace) && w.st == old(w.st)
      ensures !old(done) ==> bodyClosed == HasResponse() && ctxReleased == cancelable && !tied
      ensures !old(done) ==> w.st == State(Disposed(w.cfg, old(w.st).pc), old(w.st).data.(live := false))
      ensures !old(done) ==> w.trace == old(w.trace) + [Released(n)]
    {
      if done {
        return;
      }
      done := true;
      if HasResponse() {
        bodyClosed := true;
      }
      if cancelable {
        ctxReleased := true;
      }
      w.LogDisposal(n, false);
    }

    /** Hands the attempt's own result to the caller: an open response, or the error of the send. */
    method Deliver(w: World) returns (resp: Option<Response>, err: Option<Error>)
      requires Valid() && w.Valid() && w.st.data.n == n && !done && w.st.data.live && reply.Some?
      requires if reply.value.Failed? then w.st.pc.Dropping? else w.st.pc.Handing?
      modifies this`done, this`bodyClosed, this`ctxReleased, this`tied, w
      ensures Valid() && w.Valid() && done
      ensures w.st == State(Leaving(old(w.st).pc.final), old(w.st).data.(live := false))
      ensures w.trace == old(w.trace) + [if reply.value.Failed? then Released(n) else Delivered(n)]
      ensures reply.value.Failed? ==> resp == None && err == Some(SendError(reply.value.err))
      ensures reply.value.Answered? ==>
        resp == Some(Received(n)) && err == None && !bodyClosed && !ctxReleased && tied == cancelable
    {
      if reply.value.Failed? {
        Discard(w);
        return None, Some(SendError(reply.value.err));
      }
      done := true;
      if cancelable {
        tied := true;
      }
      w.LogDisposal(n, true);
      return Some(Received(n)), None;
    }
  }

  ghost predicate SameCall(call: Call, d: Data)
    reads call
  {
    && d.attempts == call.attempts && d.history == call.history
    && d.idempotent == call.idempotent && d.key == call.key
  }

  /** The variables of the code agree with what the protocol carries along. */
  ghost predicate Same(call: Call, a: Attempt, d: Data)
    reads call, a
  {
    && d.n == a.n && d.req == a.req && d.reply == a.reply && d.outcome == a.outcome
    && d.reason == a.reason && d.live == !a.done
    && SameCall(call, d)
  }

  /** Where a call that is over must be: about to report its end. */
  ghost predicate Over(f: Option<Final>, call: Call, s: State)
    reads call
  {
    s.data.attempts == call.attempts && s.pc == if f.Some? then Leaving(f.value) else Crashing
  }

  datatype Gating = Proceed | Down | Stop

  /** The hooks of a phase ran in order until one did not say Continue, and that one's word is taken. */
  predicate Heeded(cfg: Config, phase: Phase, v: Verdict, step: Step) {
    && step.Ran? && step.phase == phase && Legal(step.verdicts, cfg.Hooks(phase))
    && step.verdicts[|step.verdicts| - 1] == v
  }

  /** From position `k` to the end: the rejection of a call that may not wait, or a wait that ran out. */
  predicate ShutOut(cfg: Config, place: Place, trace: seq<Step>, k: nat) {
    if cfg.WaitLimit(place) <= 0 then |trace| == k + 1 && trace[k] == Emit(Gate(place, Rejected))
    else
      && |trace| == k + 2 && trace[k].Awaited? && trace[k].limit == cfg.WaitLimit(place) && trace[k].waking.Expired?
      && trace[k + 1] == Emit(Gate(place, TimedOut))
  }

  /** From position `k` to the end: the caller ended the wait for recovery or the delay after it. */
  predicate CutShort(cfg: Config, place: Place, trace: seq<Step>, k: nat) {
    && cfg.WaitLimit(place) > 0 && |trace| > k
    && trace[k].Awaited? && trace[k].limit == cfg.WaitLimit(place)
    && if |trace| == k + 1 then trace[k].waking.Ended?
       else |trace| == k + 2 && trace[k].waking.Recovered? && trace[k + 1].Slept? && trace[k + 1].canceled
  }

  predicate Spread(cfg: Config, step: Step) {
    step.Slept? && !step.canceled && 0 <= step.asked <= cfg.releaseJitter
  }

  /** From position `k` to the end: the After hooks if there are any, and, unless one of them panicked, the
      event with the outcome that they left. */
  predicate Weighed(cfg: Config, n: nat, reply: Reply, outcome: Outcome, v: Verdict, trace: seq<Step>, k: nat) {
    var done := if cfg.after == 0 then k else if v.Panic? then k + 1 else k + 2;
    && |trace| == (if v.Panic? then done else done + 1)
    && (cfg.after > 0 ==>
          && Heeded(cfg, After, v, trace[k])
          && (!v.Panic? ==> trace[k + 1] == Emit(HookDone(n, After, v))))
    && (!v.Panic? ==>
          && trace[done].Emit? && trace[done].event.AttemptDone? && trace[done].event.n == n
          && trace[done].event.reply == reply && trace[done].event.outcome == outcome)
  }

  /** What comes of an attempt once the After hooks have said `v`. */
  function Concluded(cfg: Config, d: Data, v: Verdict): State
    requires d.reply.Some? && !v.Panic?
  {
    if v.Continue? then Decide(cfg, d) else State(Protocol.Finish(d, v, ShortCircuit), d)
  }

  /** The outcome, and the report of just that outcome to the gate if there is one. */
  function Assessment(cfg: Config, outcome: Outcome): seq<Step> {
    if cfg.gated then [Classified(outcome), Reported(outcome)] else [Classified(outcome)]
  }

  /** From position `k` to the end: a wait for recovery within its limit, the release jitter, and the event
      that tells of it. */
  predicate WaitedOut(cfg: Config, place: Place, trace: seq<Step>, k: nat) {
    && |trace| == (if cfg.releaseJitter > 0 then k + 3 else k + 2)
    && trace[k].Awaited? && trace[k].limit == cfg.WaitLimit(place) && trace[k].waking.Recovered?
    && (cfg.releaseJitter > 0 ==> Spread(cfg, trace[k + 1]))
    && trace[|trace| - 1] == Emit(Gate(place, Waited))
  }

  /** A call that gives up ends with what remains of it, unless a give-up hook makes something else of it. */
  function GivenUp(remains: Final, v: Verdict): Option<Final> {
    if v.Continue? then Some(remains) else HookResult(Phase.GiveUp, v)
  }

  lemma SameRemains(d: Data, e: Data, reason: Reason, open: bool)
    requires d.n == e.n && d.reply == e.reply && d.attempts == e.attempts && d.history == e.history
    ensures Remains(d, reason, open) == Remains(e, reason, open)
  {
  }

  lemma StoppedIsHookResult(phase: Phase, v: Verdict)
    requires v.Succeed? || v.Fail?
    ensures HookResult(phase, v) == Some(Stopped(v, HookLabel(phase)))
  {
  }

  predicate SleptFor(step: Step, delay: int) {
    step.Slept? && step.asked == delay && !step.canceled
  }

  /** From position `k` to the end, a pause that was completed: the delay, with a healthy gate before and
      after it, or the wait for recovery instead of it or on top of it. */
  predicate PausedFor(cfg: Config, delay: int, trace: seq<Step>, k: nat) {
    if !cfg.gated then |trace| == k + 1 && SleptFor(trace[k], delay)
    else
      && k < |trace|
      && if trace[k] == Observed(true) then WaitedOut(cfg, AtRetry, trace, k + 1)
         else
           && k + 2 < |trace| && trace[k] == Observed(false) && SleptFor(trace[k + 1], delay)
           && if trace[k + 2] == Observed(true) then WaitedOut(cfg, AtRetry, trace, k + 3)
              else trace[k + 2] == Observed(false) && |trace| == k + 3
  }

  /** The wait that was chosen and announced: the backoff, or the server's Retry-After if that is longer
      and not too long. */
  ghost predicate WaitChosen(cfg: Config, n: nat, delay: int, steps: seq<Step>) {
    && |steps| == 2 && steps[0].Chosen?
    && match steps[0].retryAfter
       case None => delay == steps[0].backoff && steps[1] == Emit(Wait(n, delay, FromBackoff))
       case Some(ra) =>
         && ra <= cfg.maxRetryAfter && delay == Max(steps[0].backoff, ra)
         && steps[1] == Emit(Wait(n, delay, if ra > steps[0].backoff then FromRetryAfter else FromBackoff))
  }

  class Transport {
    const cfg: Config

    constructor (raw: Config)
      ensures cfg == Normalized(raw)
    {
      cfg := Normalized(raw);
    }

    /** One hook: it may say anything and edit the attempt's request and outcome and the call's state. */
    method InvokeHook(w: World, call: Call, a: Attempt) returns (v: Verdict)
      requires w.Sound()
      modifies w`heard, call`idempotent, call`key, a`req, a`outcome
      ensures w.Sound()
      ensures w.heard == old(w.heard) + [Said(v, Edit(a.req, a.outcome, call.idempotent, call.key))]
    {
      v := *;
      call.idempotent, call.key, a.req, a.outcome := *, *, *, *;
      w.Hear(Said(v, Edit(a.req, a.outcome, call.idempotent, call.key)));
    }

    /** Asks the hooks of a phase in order until one does not say Continue. */
    method AskHooks(w: World, call: Call, a: Attempt, phase: Phase) returns (v: Verdict)
      requires w.Sound() && 0 < cfg.Hooks(phase)
      modifies w`heard, call`idempotent, call`key, a`req, a`outcome
      ensures w.Sound() && old(w.heard) <= w.heard && InTurn(w.heard, |old(w.heard)|, cfg.Hooks(phase))
      ensures w.heard[|w.heard| - 1] == Said(v, Edit(a.req, a.outcome, call.idempotent, call.key))
    {
      var i := 0;
      v := Continue;
      ghost var k := |w.heard|;
      while i < cfg.Hooks(phase) && v == Continue
        invariant i <= cfg.Hooks(phase) && |w.heard| == k + i && w.heard[..k] == old(w.heard) && w.Sound()
        invariant forall h :: k <= h < k + i - 1 ==> w.heard[h].verdict == Continue
        invariant i == 0 ==> v == Continue
        invariant i > 0 ==> w.heard[k + i - 1] == Said(v, Edit(a.req, a.outcome, call.idempotent, call.key))
      {
        v := InvokeHook(w, call, a);
        i := i + 1;
      }
    }

    method RunHooks(w: World, call: Call, a: Attempt, phase: Phase) returns (v: Verdict)
      requires w.Valid() && w.cfg == cfg && w.st.pc == Running(phase) && 0 < cfg.Hooks(phase)
      requires Same(call, a, w.st.data)
      modifies call`idempotent, call`key, a`req, a`outcome, w
      ensures w.Valid() && Same(call, a, w.st.data) && w.st.data.plan == old(w.st.data.plan)
      ensures w.st.pc == if v.Panic? then Crashing else Telling(phase, v)
      ensures Adds(old(w.trace), w.trace) && Heeded(cfg, phase, v, w.trace[|old(w.trace)|])
      // What is recorded is what the hooks said and what the last of them left behind.
      ensures old(w.heard) <= w.heard && Relays(w.trace[|old(w.trace)|], w.heard[|old(w.heard)|..])
    {
      v := AskHooks(w, call, a, phase);
      InTurnIsLegal(w.heard, |old(w.heard)|, cfg.Hooks(phase), phase);
      w.LogHooks(phase);
    }

    /** Runs a phase, and tells the observer how it went unless a hook panicked. */
    method RunPhase(w: World, call: Call, a: Attempt, phase: Phase) returns (v: Verdict)
      requires w.Valid() && w.cfg == cfg && Same(call, a, w.st.data)
      requires phase.GiveUp? ==> a.reason.Some?
      requires w.st.pc == ToPhase(cfg, w.st.data, phase)
      modifies call`idempotent, call`key, a`req, a`outcome, w
      ensures w.Valid() && Same(call, a, w.st.data) && w.st.data.plan == old(w.st.data.plan)
      ensures w.st.pc == if v.Panic? then Crashing else AfterPhase(w.st.data, phase, v)
      ensures old(w.trace) <= w.trace
      ensures cfg.Hooks(phase) == 0 ==> v.Continue? && w.trace == old(w.trace)
      ensures cfg.Hooks(phase) > 0 ==> |w.trace| > |old(w.trace)| && Heeded(cfg, phase, v, w.trace[|old(w.trace)|])
      ensures cfg.Hooks(phase) > 0 ==>
        w.trace[|old(w.trace)| + 1..] == if v.Panic? then [] else [Emit(HookDone(a.n, phase, v))]
    {
      if cfg.Hooks(phase) == 0 {
        return Continue;
      }
      v := RunHooks(w, call, a, phase);
      if v.Panic? {
        return;
      }
      w.EmitHook(a.n, phase, v);
    }

    /** Releases what the attempt still holds when the call ends with `f`. */
    method Release(w: World, call: Call, a: Attempt, ghost f: Final)
      requires w.Valid() && a.Valid() && Same(call, a, w.st.data) && w.st.pc == Drop(w.st.data, f)
      modifies w, a`done, a`bodyClosed, a`ctxReleased
      ensures w.Valid() && a.Valid() && Over(Some(f), call, w.st) && w.st.data.plan == old(w.st.data.plan)
      ensures w.trace == if old(a.done) then old(w.trace) else old(w.trace) + [Released(a.n)]
      ensures a.done && (!old(a.done) ==> !a.tied)
    {
      a.Discard(w);
    }

    /** Ends the call because a hook said Succeed or Fail. */
    method Finish(w: World, call: Call, a: Attempt, v: Verdict, okLabel: Label) returns (f: Final)
      requires v.Succeed? || v.Fail?
      requires w.Valid() && a.Valid() && Same(call, a, w.st.data) && w.st.pc == Protocol.Finish(w.st.data, v, okLabel)
      modifies w, a`done, a`bodyClosed, a`ctxReleased, a`tied
      ensures w.Valid() && Over(Some(f), call, w.st) && f == Stopped(v, okLabel) && old(w.trace) <= w.trace
      // If the attempt's own undrained response comes back, it is still open.
      ensures f.resp == Some(Received(a.n)) && !old(a.done) && a.HasResponse() ==> !a.bodyClosed
    {
      if v.Succeed? && v.resp.Some? && a.HasResponse() && v.resp.value == Received(a.n) && !a.done {
        var resp, err := a.Deliver(w);
        return Final(resp, okLabel, err);
      }
      f := match v
        case Succeed(None) => Final(None, HookAborted, Some(NilResponse))
        case Succeed(resp) => Final(resp, okLabel, None)
        case Fail(e) => Final(None, HookAborted, Some(HookError(e)));
      Release(w, call, a, f);
    }

    /** The end of a call that gave up: the last response if it can still be delivered, else an error
        with the whole history. */
    method Surrender(w: World, call: Call, a: Attempt, reason: Reason) returns (f: Final)
      requires w.Valid() && a.Valid() && Same(call, a, w.st.data)
      requires a.reason == Some(reason) && w.st.pc == Protocol.Surrender(w.st.data)
      modifies w, a`done, a`bodyClosed, a`ctxReleased, a`tied
      ensures w.Valid() && Over(Some(f), call, w.st) && old(w.trace) <= w.trace
      ensures f == Remains(old(w.st.data), reason, !old(a.done))
      ensures f.resp.Some? ==> !old(a.done) && !a.bodyClosed
    {
      var result := LabelFor(reason);
      if a.reply == None || a.reply.value.Failed? || a.done {
        var cause := match a.reply
          case Some(Failed(e)) => Cause.Transport(e)
          case Some(Answered(code)) => LastStatus(code)
          case None => Because(reason);
        f := Final(None, result, Some(ExhaustedError(call.attempts, call.history, reason, cause)));
        Release(w, call, a, f);
        return;
      }
      var resp, err := a.Deliver(w);
      return Final(resp, result, err);
    }

    /** The end of a call after the give-up hooks have said `v`. */
    method Conclude(w: World, call: Call, a: Attempt, v: Verdict, reason: Reason) returns (g: Final)
      requires w.Valid() && a.Valid() && Same(call, a, w.st.data) && a.reason == Some(reason) && !v.Panic?
      requires w.st.pc == AfterPhase(w.st.data, Phase.GiveUp, v)
      modifies w, a`done, a`bodyClosed, a`ctxReleased, a`tied
      ensures w.Valid() && Over(Some(g), call, w.st) && old(w.trace) <= w.trace
      ensures v.Continue? ==> g == Remains(old(w.st.data), reason, !old(a.done))
      ensures !v.Continue? ==> HookResult(Phase.GiveUp, v) == Some(g)
    {
      if v != Continue {
        StoppedIsHookResult(Phase.GiveUp, v);
        g := Finish(w, call, a, v, Fallback);
      } else {
        g := Surrender(w, call, a, reason);
      }
    }

    /** Stops without a success: the give-up hooks may still supply a response. `v` is what they say. */
    method GiveUp(w: World, call: Call, a: Attempt, reason: Reason) returns (f: Option<Final>, ghost v: Verdict)
      requires w.Valid() && w.cfg == cfg && a.Valid() && Same(call, a, w.st.data.(reason := a.reason))
      requires w.st.data.reason == Some(reason) && w.st.pc == ToPhase(cfg, w.st.data, Phase.GiveUp)
      modifies w, call`idempotent, call`key, a
      ensures w.Valid() && Over(f, call, w.st) && old(w.trace) <= w.trace
      ensures f == GivenUp(Remains(old(w.st.data), reason, !old(a.done)), v)
      ensures cfg.giveUp == 0 ==> v.Continue?
      ensures cfg.giveUp > 0 ==>
        |w.trace| > |old(w.trace)| && Heeded(cfg, Phase.GiveUp, v, w.trace[|old(w.trace)|])
    {
      a.reason := Some(reason);
      var said := RunPhase(w, call, a, Phase.GiveUp);
      v := said;
      if said.Panic? {
        return None, v;
      }
      SameRemains(w.st.data, old(w.st.data), reason, !a.done);
      var g := Conclude(w, call, a, said, reason);
      return Some(g), v;
    }

    /** Calls that have waited for recovery are let go one by one. */
    method SpreadOut(w: World, place: Place) returns (g: Gating)
      requires w.Valid() && w.cfg == cfg
      requires w.st.pc == if cfg.releaseJitter > 0 then Jittering(place) else Admitting(place)
      modifies w
      ensures w.Valid() && !g.Down? && old(w.trace) <= w.trace
      ensures w.st == if g.Proceed? then State(Admitted(cfg, old(w.st).data, place), old(w.st).data)
                      else State(Drop(old(w.st).data, STOPPED), old(w.st).data)
      ensures g.Proceed? ==>
        && |w.trace| == |old(w.trace)| + (if cfg.releaseJitter > 0 then 2 else 1)
        && (cfg.releaseJitter > 0 ==> Spread(cfg, w.trace[|old(w.trace)|]))
        && w.trace[|w.trace| - 1] == Emit(Gate(place, Waited))
      ensures g.Stop? ==>
        |w.trace| == |old(w.trace)| + 1 && w.trace[|old(w.trace)|].Slept? && w.trace[|old(w.trace)|].canceled
    {
      if cfg.releaseJitter > 0 {
        var j :| 0 <= j <= cfg.releaseJitter;
        var canceled := w.Sleep(j);
        if canceled {
          return Stop;
        }
      }
      w.EmitGate(place, Waited);
      return Proceed;
    }

    /** Called when the gate is unhealthy: waits for recovery as far as the policy allows. */
    method AwaitHealth(w: World, place: Place) returns (g: Gating)
      requires w.Valid() && w.cfg == cfg && cfg.Normal() && w.st.pc == Blocked(cfg, place)
      modifies w
      ensures w.Valid()
      ensures w.st == match g
                      case Proceed => State(Admitted(cfg, old(w.st).data, place), old(w.st).data)
                      case Down => StopFor(cfg, old(w.st).data, DownstreamDown)
                      case Stop => State(Drop(old(w.st).data, STOPPED), old(w.st).data)
      ensures old(w.trace) <= w.trace && (g.Proceed? ==> WaitedOut(cfg, place, w.trace, |old(w.trace)|))
      ensures g.Down? ==> ShutOut(cfg, place, w.trace, |old(w.trace)|)
      ensures g.Stop? ==> CutShort(cfg, place, w.trace, |old(w.trace)|)
      ensures cfg.WaitLimit(place) <= 0 ==> g.Down?
    {
      var maxWait := cfg.WaitLimit(place);
      if maxWait <= 0 {
        w.EmitGate(place, Rejected);
        return Down;
      }
      var waking := w.WaitHealthy(maxWait);
      if waking != Recovered {
        if waking == Ended {
          return Stop;
        }
        w.EmitGate(place, TimedOut);
        return Down;
      }
      g := SpreadOut(w, place);
    }

    /** A look at the gate between two attempts, and the wait for recovery if it is down. */
    method Look(w: World) returns (healthy: bool, g: Gating)
      requires w.Valid() && w.cfg == cfg && cfg.Normal() && (w.st.pc.PauseChecking? || w.st.pc.Rechecking?)
      modifies w
      ensures w.Valid() && (g.Proceed? ==> w.st.data == old(w.st).data)
      ensures healthy ==>
        && g.Proceed? && w.trace == old(w.trace) + [Observed(false)]
        && w.st.pc == if old(w.st).pc.Rechecking? then AfterPause(cfg, w.st.data) else Sleeping(old(w.st).pc.delay)
      ensures !healthy ==>
        w.st == match g
                case Proceed => State(AfterPause(cfg, old(w.st).data), old(w.st).data)
                case Down => StopFor(cfg, old(w.st).data, DownstreamDown)
                case Stop => State(Drop(old(w.st).data, STOPPED), old(w.st).data)
      ensures !healthy ==>
        && old(w.trace) + [Observed(true)] <= w.trace
        && (g.Proceed? ==> WaitedOut(cfg, AtRetry, w.trace, |old(w.trace)| + 1))
    {
      var down := w.Unhealthy();
      if !down {
        return true, Proceed;
      }
      healthy := false;
      g := AwaitHealth(w, AtRetry);
    }

    /** The sleep of a pause that began with the trace `before`, and the second look at the gate. */
    method SleepOut(w: World, delay: int, ghost before: seq<Step>) returns (g: Gating)
      requires w.Valid() && w.cfg == cfg && cfg.Normal() && w.st.pc == Sleeping(delay)
      requires w.trace == if cfg.gated then before + [Observed(false)] else before
      modifies w
      ensures w.Valid()
      ensures w.st == match g
                      case Proceed => State(AfterPause(cfg, old(w.st).data), old(w.st).data)
                      case Down => StopFor(cfg, old(w.st).data, DownstreamDown)
                      case Stop => State(Drop(old(w.st).data, STOPPED), old(w.st).data)
      ensures old(w.trace) <= w.trace && (g.Proceed? ==> before <= w.trace && PausedFor(cfg, delay, w.trace, |before|))
    {
      var canceled := w.Sleep(delay);
      if canceled {
        return Stop;
      }
      g := Proceed;
      if cfg.gated {
        var healthy;
        healthy, g := Look(w);
      }
    }

    /** The wait between two attempts: a sleep, or the wait for recovery while the gate is unhealthy. */
    method Pause(w: World, delay: int) returns (g: Gating)
      requires w.Valid() && w.cfg == cfg && cfg.Normal()
      requires w.st.pc == if cfg.gated then PauseChecking(delay) else Sleeping(delay)
      modifies w
      ensures w.Valid()
      ensures w.st == match g
                      case Proceed => State(AfterPause(cfg, old(w.st).data), old(w.st).data)
                      case Down => StopFor(cfg, old(w.st).data, DownstreamDown)
                      case Stop => State(Drop(old(w.st).data, STOPPED), old(w.st).data)
      ensures old(w.trace) <= w.trace && (g.Proceed? ==> PausedFor(cfg, delay, w.trace, |old(w.trace)|))
    {
      var healthy;
      if cfg.gated {
        healthy, g := Look(w);
        if !healthy {
          return;
        }
      }
      g := SleepOut(w, delay, old(w.trace));
    }

    /** The gate at the start of a call: nothing is prepared while the downstream is known to be down. */
    method StartGate(w: World, call: Call, a: Attempt) returns (go: bool, f: Option<Final>)
      requires w.Valid() && w.cfg == cfg && cfg.Normal() && a.Valid() && !a.done && Same(call, a, w.st.data)
      requires w.st.pc == StartChecking
      modifies w, call`idempotent, call`key, a
      ensures w.Valid()
      ensures go ==>
        && a.Valid() && Same(call, a, w.st.data)
        && w.st == State(ToPhase(cfg, old(w.st).data, Before), old(w.st).data)
      ensures !go ==> Over(f, call, w.st)
    {
      var down := w.Unhealthy();
      if !down {
        return true, None;
      }
      var g := AwaitHealth(w, AtStart);
      match g
      case Proceed =>
        return true, None;
      case Down =>
        ghost var v;
        f, v := GiveUp(w, call, a, DownstreamDown);
        return false, f;
      case Stop =>
        Release(w, call, a, STOPPED);
        return false, Some(STOPPED);
    }

    /** The caller gave up while the attempt was under way. */
    method Lose(w: World, call: Call, a: Attempt) returns (lost: Option<Final>)
      requires w.Valid() && a.Valid() && !a.done && a.reply.Some? && a.reply.value.Failed?
      requires w.st.pc == Losing && Same(call, a, w.st.data.(outcome := a.outcome)) && w.st.data.outcome == Fatal
      modifies w, a`outcome, a`done, a`bodyClosed, a`ctxReleased
      ensures w.Valid() && a.Valid() && Over(lost, call, w.st) && w.st.data.plan == old(w.st.data.plan)
      ensures lost == Some(Final(None, Canceled, Some(SendError(a.reply.value.err)))) && a.done && !a.tied
      ensures w.trace ==
        old(w.trace) + [Emit(AttemptDone(a.n, a.reply.value, Fatal, a.ReplaySafe(call)))] + [Released(a.n)]
    {
      a.outcome := Fatal;
      w.EmitLost(a.n, a.reply.value, a.outcome, a.ReplaySafe(call));
      lost := Some(Final(None, Canceled, Some(SendError(a.reply.value.err))));
      Release(w, call, a, lost.value);
    }

    /** Sends the attempt's request, with a context of its own if there is a timeout. */
    method Dispatch(w: World, call: Call, a: Attempt) returns (reply: Reply, ctxEnded: bool)
      requires w.Valid() && w.cfg == cfg && a.Valid() && Same(call, a, w.st.data) && !a.done && w.st.pc == Sending
      modifies w, call`attempts, a`cancelable, a`reply
      ensures w.Valid() && a.Valid() && a.reply == Some(reply)
      ensures a.cancelable == (old(a.cancelable) || cfg.attemptTimeout > 0)
      ensures call.attempts == old(call.attempts) + 1 && Adds(old(w.trace), w.trace)
      ensures w.trace[|old(w.trace)|].Sent? && w.trace[|old(w.trace)|].req == a.req
      ensures w.trace[|old(w.trace)|].reply == reply && w.trace[|old(w.trace)|].ctxEnded == ctxEnded
      ensures var d := old(w.st).data.(attempts := call.attempts, reply := Some(reply));
        && Same(call, a, d)
        && w.st == if reply.Failed? && ctxEnded then State(Losing, d.(outcome := Fatal)) else State(Classifying, d)
    {
      if cfg.attemptTimeout > 0 {
        a.cancelable := true;
      }
      call.attempts := call.attempts + 1;
      reply, ctxEnded := w.Send(a.req);
      a.reply := Some(reply);
    }

    /** Sends the attempt. When the caller's context ended meanwhile, the call is over. */
    method SendOnce(w: World, call: Call, a: Attempt) returns (lost: Option<Final>)
      requires w.Valid() && w.cfg == cfg && a.Valid() && Same(call, a, w.st.data) && !a.done && w.st.pc == Sending
      modifies w, call`attempts, a
      ensures w.Valid() && a.Valid() && w.st.data.plan == old(w.st.data.plan)
      ensures call.attempts == old(call.attempts) + 1 && |w.trace| > |old(w.trace)|
      ensures a.cancelable == (old(a.cancelable) || cfg.attemptTimeout > 0)
      ensures var sent := w.trace[|old(w.trace)|];
        && sent.Sent? && sent.req == old(a.req)
        && lost == if sent.reply.Failed? && sent.ctxEnded
                   then Some(Final(None, Canceled, Some(SendError(sent.reply.err)))) else None
      ensures lost.Some? ==> Over(lost, call, w.st)
      ensures lost.None? ==> w.st.pc == Classifying && Same(call, a, w.st.data) && a.reply.Some? && !a.done
    {
      var reply, ctxEnded := Dispatch(w, call, a);
      ghost var sent := w.trace[|old(w.trace)|];
      lost := None;
      if reply.Failed? && ctxEnded {
        lost := Lose(w, call, a);
        assert w.trace[|old(w.trace)|] == sent;
      }
    }

    /** Records the attempt as the hooks have left it, and tells the observer. */
    method LogAttempt(w: World, call: Call, a: Attempt, ghost v: Verdict)
      requires w.Valid() && w.cfg == cfg && Same(call, a, w.st.data) && a.reply.Some?
      requires w.st.pc == Logging(v) && !v.Panic?
      modifies w, call`history
      ensures w.Valid()
      ensures var d := old(w.st.data).Logged();
        && Same(call, a, d) && d.plan == old(w.st.data.plan)
        && w.st == Concluded(cfg, d, v)
      ensures w.trace == old(w.trace) + [Emit(AttemptDone(a.n, a.reply.value, a.outcome, a.ReplaySafe(call)))]
    {
      call.history := call.history + [Record(a.n, a.reply.value, a.outcome)];
      w.EmitAttempt(a.n, a.reply.value, a.outcome, a.ReplaySafe(call));
    }

    /** Classifies the reply and tells the gate what the network did. */
    method Assess(w: World, call: Call, a: Attempt)
      requires w.Valid() && w.cfg == cfg && a.Valid() && Same(call, a, w.st.data)
      requires w.st.pc == Classifying && a.reply.Some?
      modifies w, a`outcome
      ensures w.Valid() && a.Valid() && Same(call, a, w.st.data) && w.st.data.plan == old(w.st.data.plan)
      ensures w.st.pc == ToPhase(cfg, w.st.data, After)
      ensures w.trace == old(w.trace) + Assessment(cfg, a.outcome)
    {
      a.outcome := w.Classify();
      if cfg.gated {
        w.Report(a.outcome);
      }
    }

    /** Lets the After hooks look at the attempt, and records what they made of it. */
    method Weigh(w: World, call: Call, a: Attempt) returns (v: Verdict, ghost d: Data)
      requires w.Valid() && w.cfg == cfg && a.Valid() && Same(call, a, w.st.data)
      requires w.st.pc == ToPhase(cfg, w.st.data, After) && a.reply.Some?
      modifies w, call`idempotent, call`key, call`history, a`req, a`outcome
      ensures w.Valid() && a.Valid() && d.plan == old(w.st.data.plan)
      ensures v.Panic? ==> Over(None, call, w.st)
      ensures !v.Panic? ==> Same(call, a, d) && w.st == Concluded(cfg, d, v)
      ensures old(w.trace) <= w.trace
      ensures Weighed(cfg, a.n, a.reply.value, a.outcome, v, w.trace, |old(w.trace)|)
    {
      v := RunPhase(w, call, a, After);
      d := w.st.data;
      if v.Panic? {
        return;
      }
      d := w.st.data.Logged();
      LogAttempt(w, call, a, v);
    }

    /** Judges the attempt: first the classifier and the gate, then the After hooks. */
    method Judge(w: World, call: Call, a: Attempt)
      returns (v: Verdict, ghost d: Data, ghost outcome: Outcome, ghost assessed: seq<Step>)
      requires w.Valid() && w.cfg == cfg && a.Valid() && Same(call, a, w.st.data) && !a.done
      requires w.st.pc == Classifying && a.reply.Some?
      modifies w, call`idempotent, call`key, call`history, a`req, a`outcome
      ensures w.Valid() && a.Valid() && d.plan == old(w.st.data.plan)
      ensures v.Panic? ==> Over(None, call, w.st)
      ensures !v.Panic? ==> Same(call, a, d) && w.st == Concluded(cfg, d, v)
      ensures assessed == old(w.trace) + Assessment(cfg, outcome) && assessed <= w.trace
      ensures Weighed(cfg, a.n, a.reply.value, a.outcome, v, w.trace, |assessed|)
    {
      Assess(w, call, a);
      outcome, assessed := a.outcome, w.trace;
      v, d := Weigh(w, call, a);
    }

    /** Decides whether the call may try again; a reason means that it may not. */
    method SafetyGates(w: World, call: Call, a: Attempt, plan: Plan, ghost d: Data) returns (stop: Option<Reason>)
      requires w.Valid() && w.cfg == cfg && Same(call, a, d) && d.plan == plan && d.reply.Some?
      requires d.outcome.NotApplied? || d.outcome.Unknown?
      requires w.st == Decide(cfg, d)
      modifies w
      ensures w.Valid()
      ensures w.st == if stop.Some? then StopFor(cfg, d, stop.value) else State(Choosing, d)
      ensures stop.None? ==> a.n < cfg.maxAttempts
      ensures Obstacle(cfg, d).Some? ==> stop == Obstacle(cfg, d) && w.trace == old(w.trace)
      ensures Obstacle(cfg, d).None? ==>
        (stop == None || stop == Some(NoBudget)) && w.trace == old(w.trace) + [Budgeted(stop == None)]
    {
      if a.n >= cfg.maxAttempts {
        return Some(MaxAttempts);
      }
      if plan.OneShot? {
        return Some(BodyNotReplayable);
      }
      if a.outcome == Unknown && !a.ReplaySafe(call) && cfg.reconcile == 0 {
        return Some(UnsafeToRetry);
      }
      var granted := w.Allow();
      return if granted then None else Some(NoBudget);
    }

    /** The wait: the backoff, or the server's Retry-After if that is longer but not too long. */
    method ChooseWait(w: World, a: Attempt) returns (delay: Option<int>)
      requires w.Valid() && w.cfg == cfg && w.st.pc == Choosing
      requires a.reply.Some? && a.reply == w.st.data.reply && a.n == w.st.data.n
      modifies w
      ensures w.Valid()
      ensures w.st == if delay.Some? then State(Draining(delay.value), old(w.st).data)
                      else StopFor(cfg, old(w.st).data, RetryAfterTooLong)
      ensures old(w.trace) <= w.trace
      ensures delay.Some? ==> WaitChosen(cfg, a.n, delay.value, w.trace[|old(w.trace)|..])
      ensures delay.None? ==>
        && Adds(old(w.trace), w.trace) && w.trace[|old(w.trace)|].Chosen?
        && w.trace[|old(w.trace)|].retryAfter.Some? && w.trace[|old(w.trace)|].retryAfter.value > cfg.maxRetryAfter
    {
      var d, retryAfter := w.Backoff(a.reply.value);
      var source := FromBackoff;
      if retryAfter.Some? {
        if retryAfter.value > cfg.maxRetryAfter {
          return None;
        }
        if retryAfter.value > d {
          d, source := retryAfter.value, FromRetryAfter;
        }
      }
      w.EmitWait(a.n, d, source);
      return Some(d);
    }

    /** After the wait, an unknown outcome is checked with the downstream first. */
    method ReconcileUnknown(w: World, call: Call, a: Attempt)
      returns (again: bool, f: Option<Final>, ghost said: Verdict)
      requires w.Valid() && w.cfg == cfg && a.Valid() && a.done && Same(call, a, w.st.data)
      requires w.st.pc == AfterPause(cfg, w.st.data)
      modifies w, call`idempotent, call`key, a
      ensures w.Valid() && old(w.trace) <= w.trace && again == said.Continue?
      ensures again ==>
        w.st.pc == Building && Same(call, a, w.st.data) && a.done && w.st.data.plan == old(w.st.data.plan)
      ensures !again ==> Over(f, call, w.st) && f == HookResult(Reconcile, said)
      ensures old(a.outcome) != Unknown || cfg.reconcile == 0 ==> again && w.trace == old(w.trace)
      ensures old(a.outcome) == Unknown && cfg.reconcile > 0 ==>
        |w.trace| > |old(w.trace)| && Heeded(cfg, Reconcile, said, w.trace[|old(w.trace)|])
      ensures again && old(a.outcome) == Unknown && cfg.reconcile > 0 ==> |w.trace| == |old(w.trace)| + 2
    {
      said := Continue;
      if a.outcome == Unknown {
        var v := RunPhase(w, call, a, Reconcile);
        said := v;
        if v.Panic? {
          return false, None, said;
        }
        if v != Continue {
          StoppedIsHookResult(Reconcile, v);
          var h := Finish(w, call, a, v, Reconciled);
          return false, Some(h), said;
        }
      }
      return true, None, said;
    }

    /** From the released response to the next attempt, unless the call ends on the way. `paused` is the trace
        after the pause. */
    method Resume(w: World, call: Call, a: Attempt, delay: int)
      returns (again: bool, f: Option<Final>, ghost paused: seq<Step>)
      requires w.Valid() && w.cfg == cfg && cfg.Normal() && a.Valid() && a.done && Same(call, a, w.st.data)
      requires w.st.pc == if cfg.gated then PauseChecking(delay) else Sleeping(delay)
      modifies w, call`idempotent, call`key, a
      ensures w.Valid()
      ensures again ==> w.st.pc == Building && w.st.data.n == a.n && !w.st.data.live
      ensures again ==> w.st.data.plan == old(w.st.data.plan) && SameCall(call, w.st.data)
      ensures !again ==> Over(f, call, w.st)
      // The pause is taken, then an unknown outcome is reconciled.
      ensures again ==> old(w.trace) <= paused <= w.trace && PausedFor(cfg, delay, paused, |old(w.trace)|)
      ensures again ==>
        if old(a.outcome) == Unknown && cfg.reconcile > 0
        then |w.trace| == |paused| + 2 && Heeded(cfg, Reconcile, Continue, w.trace[|paused|])
        else w.trace == paused
    {
      var g := Pause(w, delay);
      paused := w.trace;
      if g.Down? {
        ghost var v;
        f, v := GiveUp(w, call, a, DownstreamDown);
        return false, f, paused;
      }
      if g.Stop? {
        return false, Some(STOPPED), paused;
      }
      ghost var said;
      again, f, said := ReconcileUnknown(w, call, a);
    }

    /** From the announced wait to the next attempt, unless the call ends on the way. `released` is the trace
        after the release of the old response, and `paused` the one after the pause. */
    method Rest(w: World, call: Call, a: Attempt, delay: int)
      returns (again: bool, f: Option<Final>, ghost released: seq<Step>, ghost paused: seq<Step>)
      requires w.Valid() && w.cfg == cfg && cfg.Normal() && a.Valid() && !a.done
      requires w.st.pc == Draining(delay) && Same(call, a, w.st.data)
      modifies w, call`idempotent, call`key, a
      ensures w.Valid()
      ensures again ==> w.st.pc == Building && w.st.data.n == a.n && !w.st.data.live
      ensures again ==> w.st.data.plan == old(w.st.data.plan) && SameCall(call, w.st.data)
      ensures !again ==> Over(f, call, w.st)
      // The response is released, then the pause is taken, then an unknown outcome is reconciled.
      ensures released == old(w.trace) + [Released(a.n)]
      ensures again ==> released <= paused <= w.trace && PausedFor(cfg, delay, paused, |released|)
      ensures again ==>
        if old(a.outcome) == Unknown && cfg.reconcile > 0
        then |w.trace| == |paused| + 2 && Heeded(cfg, Reconcile, Continue, w.trace[|paused|])
        else w.trace == paused
    {
      a.Discard(w);
      released := w.trace;
      again, f, paused := Resume(w, call, a, delay);
    }

    /** From a retryable outcome to the next attempt, unless the call ends on the way. */
    method Retry(w: World, call: Call, a: Attempt, plan: Plan, ghost d: Data) returns (again: bool, f: Option<Final>)
      requires w.Valid() && w.cfg == cfg && cfg.Normal() && a.Valid() && !a.done && Same(call, a, d)
      requires d.plan == plan && d.reply.Some? && w.st == Decide(cfg, d)
      requires d.outcome.NotApplied? || d.outcome.Unknown?
      modifies w, call`idempotent, call`key, a
      ensures w.Valid()
      ensures again ==> w.st.pc == Building && w.st.data.n == a.n < cfg.maxAttempts
      ensures again ==> !w.st.data.live && w.st.data.plan == plan && SameCall(call, w.st.data)
      ensures !again ==> Over(f, call, w.st)
    {
      var stop := SafetyGates(w, call, a, plan, d);
      if stop.Some? {
        ghost var v;
        f, v := GiveUp(w, call, a, stop.value);
        return false, f;
      }
      var delay := ChooseWait(w, a);
      if delay.None? {
        ghost var v;
        f, v := GiveUp(w, call, a, RetryAfterTooLong);
        return false, f;
      }
      ghost var released, paused;
      again, f, released, paused := Rest(w, call, a, delay.value);
    }

    /** Acts on the outcome of an attempt that the hooks let stand. */
    method Settle(w: World, call: Call, a: Attempt, plan: Plan, ghost d: Data) returns (again: bool, f: Option<Final>)
      requires w.Valid() && w.cfg == cfg && cfg.Normal() && a.Valid() && !a.done && Same(call, a, d)
      requires d.plan == plan && d.reply.Some? && w.st == Decide(cfg, d)
      modifies w, call`idempotent, call`key, a
      ensures w.Valid()
      ensures again ==> w.st.pc == Building && w.st.data.n == a.n < cfg.maxAttempts
      ensures again ==> !w.st.data.live && w.st.data.plan == plan && SameCall(call, w.st.data)
      ensures !again ==> Over(f, call, w.st)
      ensures d.outcome.Success? ==>
        && !again && f == OwnResult(d, Succeeded) && (a.HasResponse() ==> !a.bodyClosed)
        && w.trace == old(w.trace) + [Refunded] + [if d.Answered() then Delivered(d.n) else Released(d.n)]
      ensures d.outcome.Fatal? ==>
        && !again && f == OwnResult(d, NonRetryable) && (a.HasResponse() ==> !a.bodyClosed)
        && w.trace == old(w.trace) + [if d.Answered() then Delivered(d.n) else Released(d.n)]
    {
      match a.outcome
      case Success =>
        w.Refund();
        var resp, err := a.Deliver(w);
        return false, Some(Final(resp, Succeeded, err));
      case Fatal =>
        var resp, err := a.Deliver(w);
        return false, Some(Final(resp, NonRetryable, err));
      case _ =>
        again, f := Retry(w, call, a, plan, d);
    }

    /** Sends an attempt and acts on how it ended. */
    method SendAndSettle(w: World, call: Call, a: Attempt, plan: Plan) returns (again: bool, f: Option<Final>)
      requires w.Valid() && w.cfg == cfg && cfg.Normal() && a.Valid() && !a.done && Same(call, a, w.st.data)
      requires w.st.pc == Sending && w.st.data.plan == plan
      modifies w, call, a
      ensures w.Valid()
      ensures again ==> w.st.pc == Building && w.st.data.n == a.n < cfg.maxAttempts
      ensures again ==> !w.st.data.live && w.st.data.plan == plan && SameCall(call, w.st.data)
      ensures !again ==> Over(f, call, w.st)
    {
      var lost := SendOnce(w, call, a);
      if lost.Some? {
        return false, lost;
      }
      var v;
      ghost var d, outcome, assessed;
      v, d, outcome, assessed := Judge(w, call, a);
      if v.Panic? {
        return false, None;
      }
      if v != Continue {
        var g := Finish(w, call, a, v, ShortCircuit);
        return false, Some(g);
      }
      again, f := Settle(w, call, a, plan, d);
    }

    /** One round of the loop, from the start gate of the first attempt on. */
    method Try(w: World, call: Call, a: Attempt, plan: Plan) returns (again: bool, f: Option<Final>)
      requires w.Valid() && w.cfg == cfg && cfg.Normal() && a.Valid() && !a.done && Same(call, a, w.st.data)
      requires w.st.pc == Started(cfg, w.st.data) && w.st.data.plan == plan
      modifies w, call, a
      ensures w.Valid()
      ensures again ==> w.st.pc == Building && w.st.data.n == a.n < cfg.maxAttempts
      ensures again ==> !w.st.data.live && w.st.data.plan == plan && SameCall(call, w.st.data)
      ensures !again ==> Over(f, call, w.st)
    {
      if a.n == 1 && cfg.gated {
        var go;
        go, f := StartGate(w, call, a);
        if !go {
          return false, f;
        }
      }
      var v := RunPhase(w, call, a, Before);
      if v.Panic? {
        return false, None;
      }
      if v != Continue {
        var g := Finish(w, call, a, v, ShortCircuit);
        return false, Some(g);
      }
      again, f := SendAndSettle(w, call, a, plan);
    }

    /** The retry loop. No result means that a hook panicked. */
    method Do(w: World, call: Call) returns (f: Option<Final>)
      requires w.Valid() && w.cfg == cfg && cfg.Normal() && cfg.original == call.original
      requires w.st == State(Preparing, Init(cfg).data) && SameCall(call, w.st.data)
      modifies w, call
      ensures w.Valid() && Over(f, call, w.st)
    {
      var plan := w.PrepareBody();
      if plan.Broken? {
        return Some(Final(None, BodyFailed, Some(BodyError(plan.err))));
      }
      var n := 1;
      while true
        invariant w.Valid() && w.st.pc == Building && w.st.data.n == n - 1 < cfg.maxAttempts
        invariant !w.st.data.live && w.st.data.plan == plan && SameCall(call, w.st.data)
        decreases cfg.maxAttempts - n
      {
        var ok := w.BuildBody(plan);
        if !ok {
          return Some(Final(None, BodyFailed, Some(BodyError(0))));
        }
        var a := new Attempt(n, call.original);
        var again;
        again, f := Try(w, call, a, plan);
        if !again {
          return;
        }
        n := n + 1;
      }
    }

    /** One logical call, from its first event to its last. The deferred clean-up closes the event
        stream even when a hook panics. */
    method RoundTrip(w: World, req: Request) returns (f: Option<Final>)
      requires w.cfg == cfg && cfg.Normal() && cfg.original == req
      requires w.Valid() && w.trace == []
      modifies w
      ensures Run(cfg, w.trace) == Some(w.st) && w.st.pc == Halted(f)
    {
      var call := new Call(req);
      w.EmitStart();
      f := Do(w, call);
      w.EmitDone(call.attempts, if f.Some? then f.value.result else Panicked);
      w.Recorded(|w.trace|);
      assert w.trace[..|w.trace|] == w.trace;
    }
  }
}
