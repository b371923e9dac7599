/** The stream of events that an observer sees of one call is a word of a fixed grammar. */
module Events {
  import opened Base
  import opened Protocol
  import opened Counting

  /** The events of a run, in order. */
  function Stream(trace: seq<Step>): seq<Event> {
    if trace == [] then []
    else
      var before, step := Stream(trace[..|trace| - 1]), trace[|trace| - 1];
      if step.Emit? then before + [step.event] else before
  }

  /** The grammar's positions: before anything, at the beginning of the block of attempt `n` (with the
      start gate possibly still to come), after its Before hooks, after its After hooks, after its attempt
      event, in the wait after it, after the gate of that wait, once the call has stopped after `n`
      attempt events, and at the end. */
  datatype Position =
    | Begin
    | Block(n: nat, gate: bool)
    | Ready(n: nat)
    | Weighed(n: nat, verdict: Verdict)
    | Over(n: nat)
    | Pausing(n: nat)
    | Let(n: nat)
    | Stopping(n: nat)
    | Closing(n: nat)
    | End(n: nat, result: Label)

  function AfterBefore(n: nat, e: Event): Option<Position> {
    match e
    case HookDone(m, After, v) => if m != n || v.Panic? then None else Some(Weighed(n, v))
    case AttemptDone(m, _, _, _) => if m == n then Some(Over(n)) else None
    case _ => None
  }

  /** The events of a block up to its attempt event. */
  function InBlock(n: nat, e: Event): Option<Position>
    requires n >= 1
  {
    match e
    case HookDone(m, Before, v) =>
      if m != n || v.Panic? then None else Some(if v.Continue? then Ready(n) else Closing(n - 1))
    case _ => AfterBefore(n, e)
  }

  function AfterWait(n: nat, e: Event): Option<Position> {
    match e
    case HookDone(m, Reconcile, v) =>
      if m != n || v.Panic? then None else Some(if v.Continue? then Block(n + 1, false) else Closing(n))
    case _ => InBlock(n + 1, e)
  }

  function Final(n: nat, e: Event): Option<Position> {
    if e.CallDone? && e.attempts == n && e.result != Panicked then Some(End(n, e.result)) else None
  }

  /** A panicking hook closes the stream at once, with or without the attempt event it prevented. */
  function Crash(n: nat, more: bool, e: Event): Option<Position> {
    if e.CallDone? && e.result == Panicked && (e.attempts == n || (more && e.attempts == n + 1))
    then Some(End(n, Panicked)) else None
  }

  function Or(a: Option<Position>, b: Option<Position>): Option<Position> {
    if a.Some? then a else b
  }

  function Follow(p: Position, e: Event): Option<Position> {
    match p
    case Begin => if e == CallStart then Some(Block(1, true)) else None
    case Block(n, gate) =>
      if n == 0 then None
      else if gate && e.Gate? && e.place.AtStart? then
        Some(if e.answer.Waited? then Block(n, false) else Stopping(n - 1))
      else Or(InBlock(n, e), Or(Final(n - 1, e), Crash(n - 1, true, e)))
    case Ready(n) => if n == 0 then None else Or(AfterBefore(n, e), Crash(n - 1, true, e))
    case Weighed(n, v) =>
      if e.AttemptDone? && e.n == n then Some(if v.Continue? then Over(n) else Closing(n)) else None
    case Over(n) =>
      (match e
       case Wait(m, _, _) => if m == n then Some(Pausing(n)) else None
       case HookDone(m, GiveUp, v) => if m == n && !v.Panic? then Some(Closing(n)) else None
       case _ => Or(Final(n, e), Crash(n, false, e)))
    case Pausing(n) =>
      if e.Gate? && e.place.AtRetry? then Some(if e.answer.Waited? then Let(n) else Stopping(n))
      else Or(AfterWait(n, e), Or(Final(n, e), Crash(n, true, e)))
    case Let(n) => Or(AfterWait(n, e), Or(Final(n, e), Crash(n, true, e)))
    case Stopping(n) =>
      (match e
       case HookDone(_, GiveUp, v) => if v.Panic? then None else Some(Closing(n))
       case _ => Or(Final(n, e), Crash(n, false, e)))
    case Closing(n) => Final(n, e)
    case End(_, _) => None
  }

  /** Where a word of the grammar leads. */
  function Parse(word: seq<Event>): Option<Position> {
    if word == [] then Some(Begin)
    else
      var before := Parse(word[..|word| - 1]);
      if before.None? then None else Follow(before.value, word[|word| - 1])
  }

  /** The grammar is ready for the block of attempt `n`. */
  predicate AtBlock(p: Position, n: nat) {
    match p
    case Block(m, _) => m == n
    case Pausing(m) => m + 1 == n
    case Let(m) => m + 1 == n
    case _ => false
  }

  predicate Closable(p: Position, attempts: nat) {
    match p
    case Block(m, _) => m == attempts + 1
    case Over(m) => m == attempts
    case Pausing(m) => m == attempts
    case Let(m) => m == attempts
    case Stopping(m) => m == attempts
    case Closing(m) => m == attempts
    case _ => false
  }

  predicate Crashable(p: Position, attempts: nat) {
    match p
    case Block(m, _) => m >= 1 && m - 1 <= attempts <= m
    case Ready(m) => m >= 1 && m - 1 <= attempts <= m
    case Over(m) => m == attempts
    case Pausing(m) => m <= attempts <= m + 1
    case Let(m) => m <= attempts <= m + 1
    case Stopping(m) => m == attempts
    case _ => false
  }

  ghost predicate PhasePosition(s: State, phase: Phase, p: Position) {
    var n := s.data.n;
    match phase
    case Before => AtBlock(p, n)
    case After => AtBlock(p, n) || p == Ready(n)
    case Reconcile => p == Pausing(n) || p == Let(n)
    case GiveUp => (p == Over(n) && s.data.attempts == n) || p == Stopping(s.data.attempts)
  }

  predicate InGate(place: Place, n: nat, p: Position) {
    if place.AtStart? then n == 1 && p == Block(1, true) else p == Pausing(n)
  }

  /** The same for a call about to end. */
  ghost predicate AtEnd(s: State, p: Position) {
    var pc := s.pc;
    && (pc.Dropping? || pc.Handing? || pc.Leaving? ==> Closable(p, s.data.attempts) && pc.final.result != Panicked)
    && (pc.Crashing? ==> Crashable(p, s.data.attempts))
    && (pc.Halted? ==>
          match pc.result
          case Some(f) => p == End(s.data.attempts, f.result) && f.result != Panicked
          case None => p.End? && p.result == Panicked && p.n <= s.data.attempts <= p.n + 1)
  }

  /** The position of the grammar that belongs to a state of the protocol. */
  ghost predicate At(s: State, p: Position) {
    var n := s.data.n;
    var pc := s.pc;
    if pc.Running? || pc.Telling? then PhasePosition(s, pc.phase, p) && (pc.Telling? ==> !pc.verdict.Panic?)
    else if pc.Rejecting? || pc.Awaiting? || pc.Jittering? || pc.Admitting? || pc.Expiring? then InGate(pc.place, n, p)
    else
      match StageOf(pc)
      case Unbuilt =>
        if pc.Opening? then p == Begin
        else if pc.Preparing? then p == Block(1, true)
        else AtBlock(p, n + 1) && (n == 0 ==> p == Block(1, true))
      case Unsent => if pc.StartChecking? then n == 1 && p == Block(1, true) else AtBlock(p, n) || p == Ready(n)
      case InFlight =>
        if pc.Logging? then p == Weighed(n, pc.verdict) || (pc.verdict.Continue? && (AtBlock(p, n) || p == Ready(n)))
        else AtBlock(p, n) || p == Ready(n)
      case Judged => if pc.Draining? then p == Pausing(n) else p == Over(n)
      case Resting => p == Pausing(n)
      case Ending => AtEnd(s, p)
  }

  function Heard(p: Position, step: Step): Option<Position> {
    if step.Emit? then Follow(p, step.event) else Some(p)
  }

  lemma EventUnbuilt(cfg: Config, s: State, step: Step, p: Position)
    requires StageOf(s.pc) == Unbuilt && Counts(cfg, s) && At(s, p) && NextUnbuilt(cfg, s, step).Some?
    ensures Heard(p, step).Some? && At(NextUnbuilt(cfg, s, step).value, Heard(p, step).value)
  {
  }

  lemma EventBefore(cfg: Config, s: State, step: Step, p: Position)
    requires StageOf(s.pc) == Unsent && (s.pc.Running? || s.pc.Telling?) && Counts(cfg, s) && At(s, p)
    requires NextUnsent(cfg, s, step).Some?
    ensures Heard(p, step).Some? && At(NextUnsent(cfg, s, step).value, Heard(p, step).value)
  {
    UnsentFrame(cfg, s, step);
  }

  lemma EventAwaiting(cfg: Config, s: State, step: Step, p: Position)
    requires StageOf(s.pc) == Unsent && !s.pc.Running? && !s.pc.Telling? && Counts(cfg, s) && At(s, p)
    requires NextUnsent(cfg, s, step).Some?
    requires s.pc.Rejecting? || s.pc.Awaiting? || s.pc.Jittering? || s.pc.Admitting? || s.pc.Expiring?
    ensures Heard(p, step).Some? && At(NextUnsent(cfg, s, step).value, Heard(p, step).value)
  {
    UnsentFrame(cfg, s, step);
  }

  lemma EventStarting(cfg: Config, s: State, step: Step, p: Position)
    requires StageOf(s.pc) == Unsent && !s.pc.Running? && !s.pc.Telling? && Counts(cfg, s) && At(s, p)
    requires NextUnsent(cfg, s, step).Some?
    requires !(s.pc.Rejecting? || s.pc.Awaiting? || s.pc.Jittering? || s.pc.Admitting? || s.pc.Expiring?)
    ensures Heard(p, step).Some? && At(NextUnsent(cfg, s, step).value, Heard(p, step).value)
  {
    UnsentFrame(cfg, s, step);
  }

  lemma EventStartGate(cfg: Config, s: State, step: Step, p: Position)
    requires StageOf(s.pc) == Unsent && !s.pc.Running? && !s.pc.Telling? && Counts(cfg, s) && At(s, p)
    requires NextUnsent(cfg, s, step).Some?
    ensures Heard(p, step).Some? && At(NextUnsent(cfg, s, step).value, Heard(p, step).value)
  {
    if s.pc.Rejecting? || s.pc.Awaiting? || s.pc.Jittering? || s.pc.Admitting? || s.pc.Expiring? {
      EventAwaiting(cfg, s, step, p);
    } else {
      EventStarting(cfg, s, step, p);
    }
  }

  lemma EventUnsent(cfg: Config, s: State, step: Step, p: Position)
    requires StageOf(s.pc) == Unsent && Counts(cfg, s) && At(s, p) && NextUnsent(cfg, s, step).Some?
    ensures Heard(p, step).Some? && At(NextUnsent(cfg, s, step).value, Heard(p, step).value)
  {
    if s.pc.Running? || s.pc.Telling? {
      EventBefore(cfg, s, step, p);
    } else {
      EventStartGate(cfg, s, step, p);
    }
  }

  lemma EventAfter(cfg: Config, s: State, step: Step, p: Position)
    requires StageOf(s.pc) == InFlight && (s.pc.Running? || s.pc.Telling?) && Counts(cfg, s) && At(s, p)
    requires NextInFlight(cfg, s, step).Some?
    ensures Heard(p, step).Some? && At(NextInFlight(cfg, s, step).value, Heard(p, step).value)
  {
    InFlightFrame(cfg, s, step);
  }

  lemma EventLogging(cfg: Config, s: State, step: Step, p: Position)
    requires StageOf(s.pc) == InFlight && s.pc.Logging? && Counts(cfg, s) && At(s, p)
    requires NextInFlight(cfg, s, step).Some?
    ensures Heard(p, step).Some? && At(NextInFlight(cfg, s, step).value, Heard(p, step).value)
  {
    InFlightFrame(cfg, s, step);
  }

  lemma EventSent(cfg: Config, s: State, step: Step, p: Position)
    requires StageOf(s.pc) == InFlight && (s.pc.Losing? || s.pc.Classifying? || s.pc.Reporting?) && Counts(cfg, s)
    requires At(s, p) && NextInFlight(cfg, s, step).Some?
    ensures Heard(p, step).Some? && At(NextInFlight(cfg, s, step).value, Heard(p, step).value)
  {
    InFlightFrame(cfg, s, step);
  }

  lemma EventInFlight(cfg: Config, s: State, step: Step, p: Position)
    requires StageOf(s.pc) == InFlight && Counts(cfg, s) && At(s, p) && NextInFlight(cfg, s, step).Some?
    ensures Heard(p, step).Some? && At(NextInFlight(cfg, s, step).value, Heard(p, step).value)
  {
    if s.pc.Running? || s.pc.Telling? {
      EventAfter(cfg, s, step, p);
    } else if s.pc.Logging? {
      EventLogging(cfg, s, step, p);
    } else {
      EventSent(cfg, s, step, p);
    }
  }

  lemma EventChoosing(cfg: Config, s: State, step: Step, p: Position)
    requires StageOf(s.pc) == Judged && Counts(cfg, s) && At(s, p) && NextJudged(cfg, s, step).Some?
    requires s.pc.Choosing?
    ensures Heard(p, step).Some? && At(NextJudged(cfg, s, step).value, Heard(p, step).value)
  {
  }

  lemma EventSpending(cfg: Config, s: State, step: Step, p: Position)
    requires StageOf(s.pc) == Judged && Counts(cfg, s) && At(s, p) && NextJudged(cfg, s, step).Some?
    requires s.pc.Refunding? || s.pc.Spending?
    ensures Heard(p, step).Some? && At(NextJudged(cfg, s, step).value, Heard(p, step).value)
  {
  }

  lemma EventWaiting(cfg: Config, s: State, step: Step, p: Position)
    requires StageOf(s.pc) == Judged && Counts(cfg, s) && At(s, p) && NextJudged(cfg, s, step).Some?
    requires s.pc.Announcing? || s.pc.Draining?
    ensures Heard(p, step).Some? && At(NextJudged(cfg, s, step).value, Heard(p, step).value)
  {
  }

  lemma EventJudged(cfg: Config, s: State, step: Step, p: Position)
    requires StageOf(s.pc) == Judged && Counts(cfg, s) && At(s, p) && NextJudged(cfg, s, step).Some?
    ensures Heard(p, step).Some? && At(NextJudged(cfg, s, step).value, Heard(p, step).value)
  {
    if s.pc.Choosing? {
      EventChoosing(cfg, s, step, p);
    } else if s.pc.Refunding? || s.pc.Spending? {
      EventSpending(cfg, s, step, p);
    } else {
      EventWaiting(cfg, s, step, p);
    }
  }

  lemma EventReconcile(cfg: Config, s: State, step: Step, p: Position)
    requires StageOf(s.pc) == Resting && (s.pc.Running? || s.pc.Telling?) && Counts(cfg, s) && At(s, p)
    requires NextResting(cfg, s, step).Some?
    ensures Heard(p, step).Some? && At(NextResting(cfg, s, step).value, Heard(p, step).value)
  {
    RestingFrame(cfg, s, step);
  }

  lemma EventRetryGate(cfg: Config, s: State, step: Step, p: Position)
    requires StageOf(s.pc) == Resting && !s.pc.Running? && !s.pc.Telling? && Counts(cfg, s) && At(s, p)
    requires NextResting(cfg, s, step).Some?
    requires s.pc.Rejecting? || s.pc.Awaiting? || s.pc.Jittering? || s.pc.Admitting? || s.pc.Expiring?
    ensures Heard(p, step).Some? && At(NextResting(cfg, s, step).value, Heard(p, step).value)
  {
    RestingFrame(cfg, s, step);
  }

  lemma EventSleeping(cfg: Config, s: State, step: Step, p: Position)
    requires StageOf(s.pc) == Resting && !s.pc.Running? && !s.pc.Telling? && Counts(cfg, s) && At(s, p)
    requires NextResting(cfg, s, step).Some?
    requires !(s.pc.Rejecting? || s.pc.Awaiting? || s.pc.Jittering? || s.pc.Admitting? || s.pc.Expiring?)
    ensures Heard(p, step).Some? && At(NextResting(cfg, s, step).value, Heard(p, step).value)
  {
    RestingFrame(cfg, s, step);
  }

  lemma EventPause(cfg: Config, s: State, step: Step, p: Position)
    requires StageOf(s.pc) == Resting && !s.pc.Running? && !s.pc.Telling? && Counts(cfg, s) && At(s, p)
    requires NextResting(cfg, s, step).Some?
    ensures Heard(p, step).Some? && At(NextResting(cfg, s, step).value, Heard(p, step).value)
  {
    if s.pc.Rejecting? || s.pc.Awaiting? || s.pc.Jittering? || s.pc.Admitting? || s.pc.Expiring? {
      EventRetryGate(cfg, s, step, p);
    } else {
      EventSleeping(cfg, s, step, p);
    }
  }

  lemma EventResting(cfg: Config, s: State, step: Step, p: Position)
    requires StageOf(s.pc) == Resting && Counts(cfg, s) && At(s, p) && NextResting(cfg, s, step).Some?
    ensures Heard(p, step).Some? && At(NextResting(cfg, s, step).value, Heard(p, step).value)
  {
    if s.pc.Running? || s.pc.Telling? {
      EventReconcile(cfg, s, step, p);
    } else {
      EventPause(cfg, s, step, p);
    }
  }

  lemma EventGiveUp(cfg: Config, s: State, step: Step, p: Position)
    requires StageOf(s.pc) == Ending && (s.pc.Running? || s.pc.Telling?) && Counts(cfg, s) && At(s, p)
    requires NextEnding(cfg, s, step).Some?
    ensures Heard(p, step).Some? && At(NextEnding(cfg, s, step).value, Heard(p, step).value)
  {
    EndingFrame(cfg, s, step);
  }

  lemma EventDisposal(cfg: Config, s: State, step: Step, p: Position)
    requires (s.pc.Dropping? || s.pc.Handing?) && Counts(cfg, s) && At(s, p) && NextEnding(cfg, s, step).Some?
    ensures Heard(p, step).Some? && At(NextEnding(cfg, s, step).value, Heard(p, step).value)
  {
    EndingFrame(cfg, s, step);
  }

  lemma EventDone(cfg: Config, s: State, step: Step, p: Position)
    requires (s.pc.Leaving? || s.pc.Crashing? || s.pc.Halted?) && Counts(cfg, s) && At(s, p)
    requires NextEnding(cfg, s, step).Some?
    ensures Heard(p, step).Some? && At(NextEnding(cfg, s, step).value, Heard(p, step).value)
  {
    EndingFrame(cfg, s, step);
  }

  lemma EventEnding(cfg: Config, s: State, step: Step, p: Position)
    requires StageOf(s.pc) == Ending && Counts(cfg, s) && At(s, p) && NextEnding(cfg, s, step).Some?
    ensures Heard(p, step).Some? && At(NextEnding(cfg, s, step).value, Heard(p, step).value)
  {
    if s.pc.Running? || s.pc.Telling? {
      EventGiveUp(cfg, s, step, p);
    } else if s.pc.Dropping? || s.pc.Handing? {
      EventDisposal(cfg, s, step, p);
    } else {
      EventDone(cfg, s, step, p);
    }
  }

  lemma EventStep(cfg: Config, s: State, step: Step, p: Position)
    requires Counts(cfg, s) && At(s, p) && Next(cfg, s, step).Some?
    ensures Heard(p, step).Some? && At(Next(cfg, s, step).value, Heard(p, step).value)
  {
    match StageOf(s.pc)
    case Unbuilt => EventUnbuilt(cfg, s, step, p);
    case Unsent => EventUnsent(cfg, s, step, p);
    case InFlight => EventInFlight(cfg, s, step, p);
    case Judged => EventJudged(cfg, s, step, p);
    case Resting => EventResting(cfg, s, step, p);
    case Ending => EventEnding(cfg, s, step, p);
  }

  lemma {:induction false} EventAlways(cfg: Config, trace: seq<Step>)
    requires cfg.Normal() && Run(cfg, trace).Some?
    ensures Parse(Stream(trace)).Some? && At(Run(cfg, trace).value, Parse(Stream(trace)).value)
  {
    if trace != [] {
      var before, step := trace[..|trace| - 1], trace[|trace| - 1];
      CountsAlways(cfg, before);
      EventAlways(cfg, before);
      EventStep(cfg, Run(cfg, before).value, step, Parse(Stream(before)).value);
      if step.Emit? {
        assert Stream(trace)[..|Stream(before)|] == Stream(before);
      }
    }
  }

  function Count(word: seq<Event>, kind: Event -> bool): nat {
    if word == [] then 0 else Count(word[..|word| - 1], kind) + (if kind(word[|word| - 1]) then 1 else 0)
  }

  /** What any word that leads to a position has in it: attempt events, wait events and ends. */
  predicate Tallies(p: Position, attempts: nat, waits: nat, dones: nat) {
    match p
    case Begin => attempts == waits == dones == 0
    case Block(n, _) => n >= 1 && attempts == waits == n - 1 && dones == 0
    case Ready(n) => n >= 1 && attempts == waits == n - 1 && dones == 0
    case Weighed(n, _) => n >= 1 && attempts == waits == n - 1 && dones == 0
    case Over(n) => n >= 1 && attempts == n && waits == n - 1 && dones == 0
    case Pausing(n) => n >= 1 && attempts == waits == n && dones == 0
    case Let(n) => n >= 1 && attempts == waits == n && dones == 0
    case Stopping(n) => attempts == n && waits == n && dones == 0
    case Closing(n) => attempts == n && n - 1 <= waits <= n && dones == 0
    case End(n, _) => attempts == n && n - 1 <= waits <= n && dones == 1
  }

  lemma TallyStep(p: Position, e: Event, attempts: nat, waits: nat, dones: nat)
    requires Tallies(p, attempts, waits, dones) && Follow(p, e).Some?
    ensures Tallies(Follow(p, e).value, attempts + (if e.AttemptDone? then 1 else 0),
                    waits + (if e.Wait? then 1 else 0), dones + (if e.CallDone? then 1 else 0))
  {
  }

  lemma {:induction false} TallyAlways(word: seq<Event>)
    requires Parse(word).Some?
    ensures Tallies(Parse(word).value, Count(word, (e: Event) => e.AttemptDone?), Count(word, (e: Event) => e.Wait?),
                    Count(word, (e: Event) => e.CallDone?))
  {
    if word != [] {
      var before := word[..|word| - 1];
      TallyAlways(before);
      TallyStep(Parse(before).value, word[|word| - 1], Count(before, (e: Event) => e.AttemptDone?),
                Count(before, (e: Event) => e.Wait?), Count(before, (e: Event) => e.CallDone?));
    }
  }

  /** How many events of each kind a call in state `s` has emitted. */
  ghost predicate Emitted(s: State, word: seq<Event>) {
    var attempts := Count(word, (e: Event) => e.AttemptDone?);
    var waits := Count(word, (e: Event) => e.Wait?);
    var dones := Count(word, (e: Event) => e.CallDone?);
    if !s.pc.Halted? then dones == 0
    else
      && dones == 1 && word != [] && attempts - 1 <= waits <= attempts
      && match s.pc.result
         case Some(f) =>
           && word[|word| - 1] == CallDone(s.data.attempts, f.result) && f.result != Panicked
           && attempts == s.data.attempts
         case None =>
           && word[|word| - 1] == CallDone(s.data.attempts, Panicked)
           && attempts <= s.data.attempts <= attempts + 1
  }

  lemma NotOver(s: State, p: Position)
    requires At(s, p) && !s.pc.Halted?
    ensures !p.End?
  {
  }

  lemma NotAtOnceEarly(cfg: Config, s: State, step: Step)
    requires (StageOf(s.pc).Unbuilt? || StageOf(s.pc).Unsent?) && Next(cfg, s, step).Some?
    ensures !Next(cfg, s, step).value.pc.Halted?
  {
  }

  lemma NotAtOnceLate(cfg: Config, s: State, step: Step)
    requires (StageOf(s.pc).InFlight? || StageOf(s.pc).Judged?) && Next(cfg, s, step).Some?
    ensures !Next(cfg, s, step).value.pc.Halted?
  {
  }

  lemma NotAtOnce(cfg: Config, s: State, step: Step)
    requires !StageOf(s.pc).Ending? && Next(cfg, s, step).Some?
    ensures !Next(cfg, s, step).value.pc.Halted?
  {
    if StageOf(s.pc).Unbuilt? || StageOf(s.pc).Unsent? {
      NotAtOnceEarly(cfg, s, step);
    } else if StageOf(s.pc).InFlight? || StageOf(s.pc).Judged? {
      NotAtOnceLate(cfg, s, step);
    }
  }

  lemma Closes(cfg: Config, s: State, step: Step, t: State)
    requires Next(cfg, s, step) == Some(t) && t.pc.Halted?
    ensures step == Emit(CallDone(t.data.attempts, if t.pc.result.Some? then t.pc.result.value.result else Panicked))
  {
    if StageOf(s.pc).Ending? {
      assert NextEnding(cfg, s, step) == Some(t);
    } else {
      NotAtOnce(cfg, s, step);
    }
  }

  /** A call is over once call_done has been emitted. */
  lemma LastEvent(cfg: Config, trace: seq<Step>, s: State)
    requires cfg.Normal() && Run(cfg, trace) == Some(s) && s.pc.Halted?
    ensures var word := Stream(trace);
            var result := if s.pc.result.Some? then s.pc.result.value.result else Panicked;
            word != [] && word[|word| - 1] == CallDone(s.data.attempts, result)
  {
    var before := Run(cfg, trace[..|trace| - 1]).value;
    Closes(cfg, before, trace[|trace| - 1], s);
  }

  /** MAIN RESULT. The events of every run form a word of the grammar. A call that is over has emitted
      exactly one call_done, as its last event and with the number of attempts and the label it ended
      with; unless a hook panicked, there are as many attempt events, and that many wait events or one
      fewer. A panic closes the stream just the same, short of at most one attempt event. */
  lemma {:induction false} EventsFollowTheGrammar(cfg: Config, trace: seq<Step>, s: State)
    requires cfg.Normal() && Run(cfg, trace) == Some(s)
    ensures Parse(Stream(trace)).Some?
    ensures Emitted(s, Stream(trace))
  {
    EventAlways(cfg, trace);
    TallyAlways(Stream(trace));
    if s.pc.Halted? {
      LastEvent(cfg, trace, s);
    } else {
      NotOver(s, Parse(Stream(trace)).value);
    }
  }
}
