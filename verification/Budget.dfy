/** The retry budget, and what it guarantees for all the calls that share it. */
module Budget {
  import opened Base
  import opened Protocol
  import opened Counting
  import Spending

  function Allow(tokens: real): (bool, real) {
    if tokens < 1.0 then (false, tokens) else (true, tokens - 1.0)
  }

  function Refund(tokens: real, max: real, ratio: real): real {
    if tokens + ratio < max then tokens + ratio else max
  }

  /** The token bucket; its methods run under a lock. */
  class Bucket {
    var tokens: real
    const max: real
    const ratio: real

    ghost predicate Valid()
      reads this
    {
      0.0 <= tokens <= max && 0.0 <= ratio
    }

    constructor (max: real, ratio: real)
      ensures tokens == max && this.max == max && this.ratio == ratio
      ensures 0.0 <= max && 0.0 <= ratio ==> Valid()
    {
      tokens, this.max, this.ratio := max, max, ratio;
    }

    method TryAllow() returns (granted: bool)
      modifies this
      ensures (granted, tokens) == Allow(old(tokens))
      ensures granted <==> old(tokens) >= 1.0
      ensures tokens == if granted then old(tokens) - 1.0 else old(tokens)
      ensures old(Valid()) ==> Valid()
    {
      if tokens < 1.0 {
        return false;
      }
      tokens := tokens - 1.0;
      return true;
    }

    method OnSuccess()
      modifies this
      ensures tokens == Refund(old(tokens), max, ratio)
      ensures tokens == if old(tokens) + ratio > max then max else old(tokens) + ratio
      ensures old(Valid()) ==> Valid()
    {
      tokens := tokens + ratio;
      if tokens > max {
        tokens := max;
      }
    }
  }

  /** Any number of calls, of any transports, interleaving on one bucket. `credit` holds the calls that
      may send: those that have just begun and those that have been granted a retry since their last
      send. `succeeded` holds the calls that have refunded the bucket. */
  datatype Pool = Pool(
    tokens: real, calls: map<nat, (Config, State)>, credit: set<nat>,
    succeeded: set<nat>,
    sends: nat, grants: nat)

  /** A new call begins, or one of the calls takes a step of the protocol. */
  datatype Move = Start(id: nat, cfg: Config) | Act(id: nat, step: Step)

  function Empty(max: real): Pool {
    Pool(max, map[], {}, {}, 0, 0)
  }

  /** The lock makes each visit to the bucket one move; what it answers depends on the tokens. */
  function Moved(p: Pool, max: real, ratio: real, m: Move): Option<Pool> {
    match m
    case Start(id, cfg) =>
      if id in p.calls || !cfg.Normal() then None
      else Some(p.(calls := p.calls[id := (cfg, Init(cfg))], credit := p.credit + {id}))
    case Act(id, step) =>
      if id !in p.calls then None
      else
        var (cfg, s) := p.calls[id];
        var next := Next(cfg, s, step);
        if next.None? then None
        else
          var q := p.(calls := p.calls[id := (cfg, next.value)]);
          if step.Sent? then Some(q.(sends := q.sends + 1, credit := q.credit - {id}))
          else if step.Refunded? then Some(q.(tokens := Refund(q.tokens, max, ratio), succeeded := q.succeeded + {id}))
          else if step.Budgeted? then
            var (granted, tokens) := Allow(q.tokens);
            if step.granted != granted then None
            else if granted then Some(q.(tokens := tokens, grants := q.grants + 1, credit := q.credit + {id}))
            else Some(q)
          else Some(q)
  }

  function Moves(max: real, ratio: real, ms: seq<Move>): Option<Pool> {
    if ms == [] then Some(Empty(max))
    else
      var before := Moves(max, ratio, ms[..|ms| - 1]);
      if before.None? then None else Moved(before.value, max, ratio, ms[|ms| - 1])
  }

  /** A call that is at its bucket has spent its credit; one that is about to send has some. */
  predicate Earned(pc: Pc, credit: bool) {
    match StageOf(pc)
    case Unbuilt => credit
    case Unsent => credit
    case InFlight => !credit
    case Judged => credit == !(pc.Spending? || pc.Refunding?)
    case Resting => credit
    case Ending => true
  }

  /** The calls that end, or have ended, with the success label. */
  function Successes(calls: map<nat, (Config, State)>): set<nat> {
    set id | id in calls && Spending.Won(calls[id].1.pc)
  }

  ghost predicate CallsInv(calls: map<nat, (Config, State)>, credit: set<nat>, succeeded: set<nat>) {
    && credit <= calls.Keys
    && (forall id :: id in calls ==> Earned(calls[id].1.pc, id in credit))
    && succeeded == Successes(calls)
  }

  function Refunds(ratio: real, successes: nat): real {
    ratio * successes as real
  }

  ghost predicate TokensInv(p: Pool, max: real, ratio: real) {
    && 0.0 <= p.tokens <= max
    && max - p.grants as real <= p.tokens <= max - p.grants as real + Refunds(ratio, |p.succeeded|)
  }

  ghost predicate PoolInv(p: Pool, max: real, ratio: real) {
    && CallsInv(p.calls, p.credit, p.succeeded)
    && p.sends + |p.credit| == |p.calls| + p.grants
    && TokensInv(p, max, ratio)
  }

  predicate Credited(credit: bool, step: Step) {
    if step.Sent? then false else if step.Budgeted? && step.granted then true else credit
  }

  /** What a step does to the credit of its call. */
  predicate CreditMoves(step: Step, credit: bool, pc: Pc) {
    && Earned(pc, Credited(credit, step))
    && (step.Sent? ==> credit) && (step.Budgeted? ==> !credit)
  }

  lemma EarnedUnbuilt(cfg: Config, s: State, step: Step, credit: bool)
    requires StageOf(s.pc) == Unbuilt && Earned(s.pc, credit) && NextUnbuilt(cfg, s, step).Some?
    ensures CreditMoves(step, credit, NextUnbuilt(cfg, s, step).value.pc)
  {
  }

  lemma EarnedUnsent(cfg: Config, s: State, step: Step, credit: bool)
    requires StageOf(s.pc) == Unsent && Earned(s.pc, credit) && NextUnsent(cfg, s, step).Some?
    ensures CreditMoves(step, credit, NextUnsent(cfg, s, step).value.pc)
  {
    UnsentFrame(cfg, s, step);
  }

  lemma EarnedInFlight(cfg: Config, s: State, step: Step, credit: bool)
    requires StageOf(s.pc) == InFlight && Earned(s.pc, credit) && NextInFlight(cfg, s, step).Some?
    ensures CreditMoves(step, credit, NextInFlight(cfg, s, step).value.pc)
  {
    InFlightFrame(cfg, s, step);
  }

  lemma EarnedJudged(cfg: Config, s: State, step: Step, credit: bool)
    requires StageOf(s.pc) == Judged && Earned(s.pc, credit) && NextJudged(cfg, s, step).Some?
    ensures CreditMoves(step, credit, NextJudged(cfg, s, step).value.pc)
  {
    JudgedFrame(cfg, s, step);
  }

  lemma EarnedResting(cfg: Config, s: State, step: Step, credit: bool)
    requires StageOf(s.pc) == Resting && Earned(s.pc, credit) && NextResting(cfg, s, step).Some?
    ensures CreditMoves(step, credit, NextResting(cfg, s, step).value.pc)
  {
    RestingFrame(cfg, s, step);
  }

  lemma EarnedEnding(cfg: Config, s: State, step: Step, credit: bool)
    requires StageOf(s.pc) == Ending && Earned(s.pc, credit) && NextEnding(cfg, s, step).Some?
    ensures CreditMoves(step, credit, NextEnding(cfg, s, step).value.pc)
  {
    EndingFrame(cfg, s, step);
  }

  lemma EarnedStep(cfg: Config, s: State, step: Step, credit: bool)
    requires Earned(s.pc, credit) && Next(cfg, s, step).Some?
    ensures CreditMoves(step, credit, Next(cfg, s, step).value.pc)
  {
    match StageOf(s.pc)
    case Unbuilt => EarnedUnbuilt(cfg, s, step, credit);
    case Unsent => EarnedUnsent(cfg, s, step, credit);
    case InFlight => EarnedInFlight(cfg, s, step, credit);
    case Judged => EarnedJudged(cfg, s, step, credit);
    case Resting => EarnedResting(cfg, s, step, credit);
    case Ending => EarnedEnding(cfg, s, step, credit);
  }

  lemma RefundEarns(p: Pool, max: real, ratio: real, id: nat)
    requires TokensInv(p, max, ratio) && 0.0 <= ratio && id !in p.succeeded
    ensures TokensInv(p.(tokens := Refund(p.tokens, max, ratio), succeeded := p.succeeded + {id}), max, ratio)
  {
    var k := |p.succeeded|;
    assert |p.succeeded + {id}| == k + 1;
    assert Refunds(ratio, k + 1) == Refunds(ratio, k) + ratio;
  }

  /** A call that begins may send. */
  lemma CallsStart(calls: map<nat, (Config, State)>, credit: set<nat>, succeeded: set<nat>, id: nat, cfg: Config)
    requires CallsInv(calls, credit, succeeded) && id !in calls
    ensures CallsInv(calls[id := (cfg, Init(cfg))], credit + {id}, succeeded) && id !in credit
  {
    var begun := calls[id := (cfg, Init(cfg))];
    assert forall i :: i in begun && i != id ==> i in calls && begun[i] == calls[i];
    assert Successes(begun) == Successes(calls);
  }

  lemma StartKeeps(p: Pool, max: real, ratio: real, id: nat, cfg: Config)
    requires PoolInv(p, max, ratio) && Moved(p, max, ratio, Start(id, cfg)).Some?
    ensures PoolInv(Moved(p, max, ratio, Start(id, cfg)).value, max, ratio)
  {
    CallsStart(p.calls, p.credit, p.succeeded, id, cfg);
    assert |p.credit + {id}| == |p.credit| + 1;
    assert |p.calls[id := (cfg, Init(cfg))]| == |p.calls| + 1;
  }

  /** One call moves on; the others stay where they are. */
  lemma CallsStep(calls: map<nat, (Config, State)>, credit: set<nat>, succeeded: set<nat>, id: nat, step: Step)
    requires CallsInv(calls, credit, succeeded) && id in calls && Next(calls[id].0, calls[id].1, step).Some?
    ensures var moved := calls[id := (calls[id].0, Next(calls[id].0, calls[id].1, step).value)];
            var credited := if Credited(id in credit, step) then credit + {id} else credit - {id};
            && CallsInv(moved, credited, if step.Refunded? then succeeded + {id} else succeeded)
            && moved.Keys == calls.Keys
    ensures step.Sent? ==> id in credit
    ensures step.Budgeted? ==> id !in credit
    ensures step.Refunded? ==> id !in succeeded
  {
    EarnedStep(calls[id].0, calls[id].1, step, id in credit);
    Spending.WonStep(calls[id].0, calls[id].1, step);
  }

  /** What one call's step leaves of its pool, apart from the tokens. */
  lemma ActMoves(p: Pool, max: real, ratio: real, id: nat, step: Step)
    requires Moved(p, max, ratio, Act(id, step)).Some?
    requires step.Sent? ==> id in p.credit
    requires step.Budgeted? ==> id !in p.credit
    ensures id in p.calls && Next(p.calls[id].0, p.calls[id].1, step).Some?
    ensures var q := Moved(p, max, ratio, Act(id, step)).value;
            && q.calls == p.calls[id := (p.calls[id].0, Next(p.calls[id].0, p.calls[id].1, step).value)]
            && q.credit == (if Credited(id in p.credit, step) then p.credit + {id} else p.credit - {id})
            && q.succeeded == (if step.Refunded? then p.succeeded + {id} else p.succeeded)
            && q.sends + |q.credit| - q.grants == p.sends + |p.credit| - p.grants
  {
  }

  /** The tokens that the step leaves in the bucket. */
  lemma ActSpends(p: Pool, max: real, ratio: real, id: nat, step: Step)
    requires 0.0 <= ratio && TokensInv(p, max, ratio) && Moved(p, max, ratio, Act(id, step)).Some?
    requires step.Refunded? ==> id !in p.succeeded
    ensures TokensInv(Moved(p, max, ratio, Act(id, step)).value, max, ratio)
  {
    if step.Refunded? {
      RefundEarns(p, max, ratio, id);
    }
  }

  lemma ActKeeps(p: Pool, max: real, ratio: real, id: nat, step: Step)
    requires 0.0 <= ratio && PoolInv(p, max, ratio) && Moved(p, max, ratio, Act(id, step)).Some?
    ensures PoolInv(Moved(p, max, ratio, Act(id, step)).value, max, ratio)
  {
    CallsStep(p.calls, p.credit, p.succeeded, id, step);
    ActMoves(p, max, ratio, id, step);
    ActSpends(p, max, ratio, id, step);
    var q := Moved(p, max, ratio, Act(id, step)).value;
    assert |q.calls| == |q.calls.Keys| == |p.calls.Keys| == |p.calls|;
  }

  lemma {:induction false} PoolAlways(max: real, ratio: real, ms: seq<Move>)
    requires 0.0 <= max && 0.0 <= ratio && Moves(max, ratio, ms).Some?
    ensures PoolInv(Moves(max, ratio, ms).value, max, ratio)
  {
    if ms != [] {
      var before := ms[..|ms| - 1];
      PoolAlways(max, ratio, before);
      match ms[|ms| - 1]
      case Start(id, cfg) => StartKeeps(Moves(max, ratio, before).value, max, ratio, id, cfg);
      case Act(id, step) => ActKeeps(Moves(max, ratio, before).value, max, ratio, id, step);
    }
  }

  lemma SubsetIsSmaller(a: set<nat>, b: set<nat>)
    requires a <= b
    ensures |a| <= |b|
  {
    assert b == a + (b - a);
  }

  lemma FewerSends(sends: nat, calls: nat, grants: nat, tokens: real, max: real, refunds: real)
    requires sends <= calls + grants && 0.0 <= tokens <= max - grants as real + refunds
    ensures sends as real <= calls as real + max + refunds
  {
    assert sends as real <= (calls + grants) as real;
  }

  lemma PoolBound(p: Pool, max: real, ratio: real)
    requires PoolInv(p, max, ratio)
    ensures p.sends as real <= |p.calls| as real + max + Refunds(ratio, |p.succeeded|)
    ensures |p.succeeded| <= |p.calls|
  {
    SubsetIsSmaller(p.succeeded, p.calls.Keys);
    assert |p.calls| == |p.calls.Keys|;
    FewerSends(p.sends, |p.calls|, p.grants, p.tokens, max, Refunds(ratio, |p.succeeded|));
  }

  /** MAIN RESULT. For any number of calls on one bucket, under every interleaving: the tokens stay
      between zero and the maximum, and the sends are at most one for each call, plus the bucket's
      maximum, plus the ratio for each call that ended as a success. */
  lemma {:induction false} AmplificationIsBounded(max: real, ratio: real, ms: seq<Move>)
    requires 0.0 <= max && 0.0 <= ratio && Moves(max, ratio, ms).Some?
    ensures var p := Moves(max, ratio, ms).value;
            && 0.0 <= p.tokens <= max
            && p.sends as real <= |p.calls| as real + max + Refunds(ratio, |Successes(p.calls)|)
            && |Successes(p.calls)| <= |p.calls|
  {
    PoolAlways(max, ratio, ms);
    PoolBound(Moves(max, ratio, ms).value, max, ratio);
  }

  /** MAIN RESULT. Under every interleaving a call is granted a retry exactly if there is a whole token: it is
      refused only when less than one is left, so only after more grants than the maximum less one, and every
      grant takes just one token. */
  lemma {:induction false} RefusedOnlyWhenSpent(max: real, ratio: real, ms: seq<Move>, id: nat, granted: bool)
    requires 0.0 <= max && 0.0 <= ratio && Moves(max, ratio, ms).Some?
    requires Moved(Moves(max, ratio, ms).value, max, ratio, Act(id, Budgeted(granted))).Some?
    ensures var p := Moves(max, ratio, ms).value;
            var q := Moved(p, max, ratio, Act(id, Budgeted(granted))).value;
            && (granted <==> p.tokens >= 1.0)
            && q.tokens == (if granted then p.tokens - 1.0 else p.tokens)
            && (!granted ==> p.grants as real > max - 1.0)
  {
    PoolAlways(max, ratio, ms);
  }

  /** A call that ends as a success gives the bucket the ratio back, as far as there is room. */
  lemma RefundIsFelt(max: real, ratio: real, p: Pool, id: nat)
    requires Moved(p, max, ratio, Act(id, Refunded)).Some?
    ensures var q := Moved(p, max, ratio, Act(id, Refunded)).value;
            q.tokens == if p.tokens + ratio > max then max else p.tokens + ratio
  {
  }
}
