/** A key per call: one key for all attempts of a run, and a server that honours it. */
module Keys {
  import opened Base
  import opened Protocol
  import opened Counting
  import opened Hooks
  import opened Effects

  ghost predicate Keyed(cfg: Config, d: Data, edit: Edit, name: string) {
    exists generated :: edit.key == Some(ChooseKey(PerCall, d.key, d.n, Get(cfg.original.headers, name), generated))
  }

  ghost predicate KeyedStep(cfg: Config, d: Data, step: Step, name: string)
    requires step.Ran?
  {
    && (step.edit.key == d.key || (step.phase.Before? && Keyed(cfg, d, step.edit, name)))
    && (step.phase.Before? && step.verdicts != [] && step.verdicts[|step.verdicts| - 1].Continue? ==>
          && Keyed(cfg, d, step.edit, name)
          && step.edit.idempotent && Get(step.edit.req.headers, name) == step.edit.key.value)
  }

  /** The only hook that touches the stored key is a key-per-call hook among the Before hooks, and once
      they have all said Continue its work is in place. */
  ghost predicate KeyPerCall(cfg: Config, trace: seq<Step>, name: string) {
    && cfg.before > 0
    && forall i {:trigger trace[i]} :: 0 <= i < |trace| && trace[i].Ran? && Run(cfg, Up(trace, i)).Some? ==>
         KeyedStep(cfg, Run(cfg, Up(trace, i)).value.data, trace[i], name)
  }

  /** The keys of a run's sends, in order. */
  function SentKeys(trace: seq<Step>, name: string): seq<string> {
    if trace == [] then []
    else
      var before, step := SentKeys(trace[..|trace| - 1], name), trace[|trace| - 1];
      if step.Sent? then before + [Get(step.req.headers, name)] else before
  }

  /** The keys of the sends that were applied. */
  function AppliedKeys(trace: seq<Step>, name: string): set<string> {
    if trace == [] then {}
    else
      var before, step := AppliedKeys(trace[..|trace| - 1], name), trace[|trace| - 1];
      if IsApplied(step) then before + {Get(step.req.headers, name)} else before
  }

  /** The server carries out at most one operation for each key. */
  ghost predicate Dedupes(trace: seq<Step>, name: string) {
    forall i {:trigger trace[i]} :: 0 <= i < |trace| && IsApplied(trace[i]) ==>
      Get(trace[i].req.headers, name) !in AppliedKeys(Up(trace, i), name)
  }

  predicate AllAre(keys: seq<string>, key: string) {
    forall i :: 0 <= i < |keys| ==> keys[i] == key
  }

  predicate AllEqual(keys: seq<string>) {
    forall i, j :: 0 <= i < |keys| && 0 <= j < |keys| ==> keys[i] == keys[j]
  }

  predicate Carries(d: Data, name: string) {
    d.key.Some? && Get(d.req.headers, name) == d.key.value && d.idempotent
  }

  /** Once the first Before phase has passed there is one key, and every send has carried it. */
  ghost predicate KeyInv(cfg: Config, s: State, keys: seq<string>, name: string) {
    var d := s.data;
    var own := Get(cfg.original.headers, name);
    && (if d.key.Some? then AllAre(keys, d.key.value) else keys == [])
    && (d.key.Some? && own != "" ==> d.key.value == own)
    && match StageOf(s.pc)
       case Unbuilt => d.key.Some? <==> d.n > 0
       case Unsent =>
         if s.pc.Telling? then s.pc.verdict.Continue? ==> Carries(d, name)
         else if s.pc.Sending? then Carries(d, name)
         else d.key.Some? <==> d.n > 1
       case Ending => true
       case _ => d.key.Some?
  }

  function KeysAfter(keys: seq<string>, step: Step, name: string): seq<string> {
    if step.Sent? then keys + [Get(step.req.headers, name)] else keys
  }

  lemma KeyUnbuilt(cfg: Config, s: State, step: Step, keys: seq<string>, name: string)
    requires StageOf(s.pc) == Unbuilt && Counts(cfg, s) && KeyInv(cfg, s, keys, name) && cfg.before > 0
    requires step.Ran? ==> KeyedStep(cfg, s.data, step, name)
    requires NextUnbuilt(cfg, s, step).Some?
    ensures KeyInv(cfg, NextUnbuilt(cfg, s, step).value, KeysAfter(keys, step, name), name)
  {
  }

  lemma KeyBefore(cfg: Config, s: State, step: Step, keys: seq<string>, name: string)
    requires StageOf(s.pc) == Unsent && (s.pc.Running? || s.pc.Telling?) && Counts(cfg, s)
    requires KeyInv(cfg, s, keys, name) && cfg.before > 0
    requires step.Ran? ==> KeyedStep(cfg, s.data, step, name)
    requires NextUnsent(cfg, s, step).Some?
    ensures KeyInv(cfg, NextUnsent(cfg, s, step).value, KeysAfter(keys, step, name), name)
  {
  }

  lemma KeySending(cfg: Config, s: State, step: Step, keys: seq<string>, name: string)
    requires StageOf(s.pc) == Unsent && s.pc.Sending? && Counts(cfg, s) && KeyInv(cfg, s, keys, name) && cfg.before > 0
    requires step.Ran? ==> KeyedStep(cfg, s.data, step, name)
    requires NextUnsent(cfg, s, step).Some?
    ensures KeyInv(cfg, NextUnsent(cfg, s, step).value, KeysAfter(keys, step, name), name)
  {
  }

  lemma KeyStartGate(cfg: Config, s: State, step: Step, keys: seq<string>, name: string)
    requires StageOf(s.pc) == Unsent && !(s.pc.Running? || s.pc.Telling? || s.pc.Sending?) && Counts(cfg, s)
    requires KeyInv(cfg, s, keys, name) && cfg.before > 0
    requires step.Ran? ==> KeyedStep(cfg, s.data, step, name)
    requires NextUnsent(cfg, s, step).Some?
    ensures KeyInv(cfg, NextUnsent(cfg, s, step).value, KeysAfter(keys, step, name), name)
  {
  }

  lemma KeyUnsent(cfg: Config, s: State, step: Step, keys: seq<string>, name: string)
    requires StageOf(s.pc) == Unsent && Counts(cfg, s) && KeyInv(cfg, s, keys, name) && cfg.before > 0
    requires step.Ran? ==> KeyedStep(cfg, s.data, step, name)
    requires NextUnsent(cfg, s, step).Some?
    ensures KeyInv(cfg, NextUnsent(cfg, s, step).value, KeysAfter(keys, step, name), name)
  {
    if s.pc.Running? || s.pc.Telling? {
      KeyBefore(cfg, s, step, keys, name);
    } else if s.pc.Sending? {
      KeySending(cfg, s, step, keys, name);
    } else {
      KeyStartGate(cfg, s, step, keys, name);
    }
  }

  lemma KeyInFlight(cfg: Config, s: State, step: Step, keys: seq<string>, name: string)
    requires StageOf(s.pc) == InFlight && Counts(cfg, s) && KeyInv(cfg, s, keys, name) && cfg.before > 0
    requires step.Ran? ==> KeyedStep(cfg, s.data, step, name)
    requires NextInFlight(cfg, s, step).Some?
    ensures KeyInv(cfg, NextInFlight(cfg, s, step).value, KeysAfter(keys, step, name), name)
  {
  }

  lemma KeyJudged(cfg: Config, s: State, step: Step, keys: seq<string>, name: string)
    requires StageOf(s.pc) == Judged && Counts(cfg, s) && KeyInv(cfg, s, keys, name) && cfg.before > 0
    requires step.Ran? ==> KeyedStep(cfg, s.data, step, name)
    requires NextJudged(cfg, s, step).Some?
    ensures KeyInv(cfg, NextJudged(cfg, s, step).value, KeysAfter(keys, step, name), name)
  {
  }

  lemma KeyReconcile(cfg: Config, s: State, step: Step, keys: seq<string>, name: string)
    requires StageOf(s.pc) == Resting && (s.pc.Running? || s.pc.Telling?) && Counts(cfg, s)
    requires KeyInv(cfg, s, keys, name) && cfg.before > 0
    requires step.Ran? ==> KeyedStep(cfg, s.data, step, name)
    requires NextResting(cfg, s, step).Some?
    ensures KeyInv(cfg, NextResting(cfg, s, step).value, KeysAfter(keys, step, name), name)
  {
  }

  lemma KeyPause(cfg: Config, s: State, step: Step, keys: seq<string>, name: string)
    requires StageOf(s.pc) == Resting && !s.pc.Running? && !s.pc.Telling? && Counts(cfg, s)
    requires KeyInv(cfg, s, keys, name) && cfg.before > 0
    requires step.Ran? ==> KeyedStep(cfg, s.data, step, name)
    requires NextResting(cfg, s, step).Some?
    ensures KeyInv(cfg, NextResting(cfg, s, step).value, KeysAfter(keys, step, name), name)
  {
  }

  lemma KeyResting(cfg: Config, s: State, step: Step, keys: seq<string>, name: string)
    requires StageOf(s.pc) == Resting && Counts(cfg, s) && KeyInv(cfg, s, keys, name) && cfg.before > 0
    requires step.Ran? ==> KeyedStep(cfg, s.data, step, name)
    requires NextResting(cfg, s, step).Some?
    ensures KeyInv(cfg, NextResting(cfg, s, step).value, KeysAfter(keys, step, name), name)
  {
    if s.pc.Running? || s.pc.Telling? {
      KeyReconcile(cfg, s, step, keys, name);
    } else {
      KeyPause(cfg, s, step, keys, name);
    }
  }

  lemma KeyGiveUp(cfg: Config, s: State, step: Step, keys: seq<string>, name: string)
    requires StageOf(s.pc) == Ending && (s.pc.Running? || s.pc.Telling?) && Counts(cfg, s)
    requires KeyInv(cfg, s, keys, name) && cfg.before > 0
    requires step.Ran? ==> KeyedStep(cfg, s.data, step, name)
    requires NextEnding(cfg, s, step).Some?
    ensures KeyInv(cfg, NextEnding(cfg, s, step).value, KeysAfter(keys, step, name), name)
  {
  }

  lemma KeyLeaving(cfg: Config, s: State, step: Step, keys: seq<string>, name: string)
    requires StageOf(s.pc) == Ending && !(s.pc.Running? || s.pc.Telling?) && Counts(cfg, s)
    requires KeyInv(cfg, s, keys, name) && cfg.before > 0
    requires step.Ran? ==> KeyedStep(cfg, s.data, step, name)
    requires NextEnding(cfg, s, step).Some?
    ensures KeyInv(cfg, NextEnding(cfg, s, step).value, KeysAfter(keys, step, name), name)
  {
  }

  lemma KeyEnding(cfg: Config, s: State, step: Step, keys: seq<string>, name: string)
    requires StageOf(s.pc) == Ending && Counts(cfg, s) && KeyInv(cfg, s, keys, name) && cfg.before > 0
    requires step.Ran? ==> KeyedStep(cfg, s.data, step, name)
    requires NextEnding(cfg, s, step).Some?
    ensures KeyInv(cfg, NextEnding(cfg, s, step).value, KeysAfter(keys, step, name), name)
  {
    if s.pc.Running? || s.pc.Telling? {
      KeyGiveUp(cfg, s, step, keys, name);
    } else {
      KeyLeaving(cfg, s, step, keys, name);
    }
  }

  lemma KeyStep(cfg: Config, s: State, step: Step, keys: seq<string>, name: string)
    requires Counts(cfg, s) && KeyInv(cfg, s, keys, name) && cfg.before > 0 && Next(cfg, s, step).Some?
    requires step.Ran? ==> KeyedStep(cfg, s.data, step, name)
    ensures KeyInv(cfg, Next(cfg, s, step).value, KeysAfter(keys, step, name), name)
  {
    match StageOf(s.pc)
    case Unbuilt => KeyUnbuilt(cfg, s, step, keys, name);
    case Unsent => KeyUnsent(cfg, s, step, keys, name);
    case InFlight => KeyInFlight(cfg, s, step, keys, name);
    case Judged => KeyJudged(cfg, s, step, keys, name);
    case Resting => KeyResting(cfg, s, step, keys, name);
    case Ending => KeyEnding(cfg, s, step, keys, name);
  }

  lemma {:induction false} KeyAlways(cfg: Config, trace: seq<Step>, name: string)
    requires cfg.Normal() && Run(cfg, trace).Some? && KeyPerCall(cfg, trace, name)
    ensures KeyInv(cfg, Run(cfg, trace).value, SentKeys(trace, name), name)
  {
    if trace != [] {
      var before, step := trace[..|trace| - 1], trace[|trace| - 1];
      CountsAlways(cfg, before);
      forall i: nat | i < |before|
        ensures before[i] == trace[i] && Up(before, i) == Up(trace, i)
      {
        UpPrefix(trace, i);
      }
      assert Up(trace, |before|) == before;
      KeyAlways(cfg, before, name);
      KeyStep(cfg, Run(cfg, before).value, step, SentKeys(before, name), name);
    }
  }

  /** MAIN RESULT. Every attempt of a run with a key per call carries the same key, which is the caller's
      own if the request came with one, and is sent marked replay-safe. */
  lemma OneKeyForAllAttempts(cfg: Config, trace: seq<Step>, name: string)
    requires cfg.Normal() && Run(cfg, trace).Some? && KeyPerCall(cfg, trace, name)
    ensures AllEqual(SentKeys(trace, name))
    ensures Get(cfg.original.headers, name) != "" ==> AllAre(SentKeys(trace, name), Get(cfg.original.headers, name))
    ensures Run(cfg, trace).value.pc == Sending ==> Run(cfg, trace).value.data.ReplaySafe()
  {
    KeyAlways(cfg, trace, name);
  }

  /** The applied keys are keys of sends; a server that dedupes holds as many effects as it has seen keys. */
  lemma {:induction false} EffectsAreKeys(trace: seq<Step>, name: string)
    requires Dedupes(trace, name)
    ensures Applied(trace) == |AppliedKeys(trace, name)|
    ensures forall key :: key in AppliedKeys(trace, name) ==> key in SentKeys(trace, name)
  {
    if trace != [] {
      var before := trace[..|trace| - 1];
      forall i: nat | i < |before|
        ensures before[i] == trace[i] && Up(before, i) == Up(trace, i)
      {
        UpPrefix(trace, i);
      }
      assert Up(trace, |before|) == before;
      EffectsAreKeys(before, name);
      var step := trace[|before|];
      if IsApplied(step) {
        assert Get(step.req.headers, name) !in AppliedKeys(before, name);
      }
    }
  }

  lemma OneKeyAtMost(sent: seq<string>, applied: set<string>)
    requires AllEqual(sent)
    requires forall key :: key in applied ==> key in sent
    ensures |applied| <= 1
  {
    if sent == [] {
      assert applied == {};
    } else {
      assert applied <= {sent[0]};
      assert applied == {} || applied == {sent[0]};
    }
  }

  /** MAIN RESULT. A key per call and a server that dedupes by it: however often the call is retried, and
      whatever its outcomes are taken for, the operation is carried out at most once. */
  lemma AtMostOnceByKey(cfg: Config, trace: seq<Step>, name: string)
    requires cfg.Normal() && Run(cfg, trace).Some? && KeyPerCall(cfg, trace, name) && Dedupes(trace, name)
    ensures Applied(trace) <= 1
  {
    OneKeyForAllAttempts(cfg, trace, name);
    EffectsAreKeys(trace, name);
    OneKeyAtMost(SentKeys(trace, name), AppliedKeys(trace, name));
  }
}
