/** Runs that show where the guarantees end: a reconciler that fails open can repeat an effect, a late hook
    can hand back a response that has already been drained, and a gate that shuts between two attempts costs
    the call its last response and a token. */
module Limits {
  import opened Base
  import opened Protocol
  import opened Effects
  import opened Hooks
  import opened Ownership
  import opened Spending

  const ORDER := Request("POST", "downstream", map[])

  /** Two attempts, one reconcile hook, no gate. */
  const CFG := Config(2, 0, 0, false, 0, 0, 0, 0, 0, 1, 0, ORDER)

  /** The data of the call once its first attempt is released. */
  const LOST := Data(1, 1, NoBody, [Record(1, Answered(504), Unknown)], false, None, ORDER,
                     Some(Answered(504)), Unknown, None, false)

  /** The first attempt is applied, but the answer does not tell; the call waits, and asks the hook. */
  function FirstTry(): seq<Step> {
    [ Emit(CallStart), Prepared(NoBody), Built(true),
      Sent(ORDER, Answered(504), false, true), Classified(Unknown), Emit(AttemptDone(1, Answered(504), Unknown, false)),
      Budgeted(true), Chosen(0, None), Emit(Wait(1, 0, FromBackoff)), Released(1), Slept(0, 0, false) ]
  }

  function Asked(v: Verdict): seq<Step> {
    [Ran(Reconcile, [v], Edit(ORDER, Unknown, false, None)), Emit(HookDone(1, Reconcile, v))]
  }

  lemma Hop(trace: seq<Step>, s: State, step: Step, t: State)
    requires Run(CFG, trace) == Some(s) && Next(CFG, s, step) == Some(t)
    ensures Run(CFG, trace + [step]) == Some(t)
  {
    RunSnoc(CFG, trace, step);
  }

  /** Steps that lead from state to state are a run. */
  lemma {:induction false} Follows(cfg: Config, steps: seq<Step>, stops: seq<State>, k: nat)
    requires |stops| == |steps| + 1 && k <= |steps| && stops[0] == Init(cfg)
    requires forall i {:trigger steps[i]} :: 0 <= i < |steps| ==> Next(cfg, stops[i], steps[i]) == Some(stops[i + 1])
    ensures Run(cfg, steps[..k]) == Some(stops[k])
  {
    if k > 0 {
      Follows(cfg, steps, stops, k - 1);
      RunSnoc(cfg, steps[..k - 1], steps[k - 1]);
      assert steps[..k - 1] + [steps[k - 1]] == steps[..k];
    }
  }

  /** The states before each step of the first try. */
  function Stops(): seq<State> {
    var built := Init(CFG).data.Fresh(ORDER);
    var sent := built.(attempts := 1, reply := Some(Answered(504)));
    var judged := LOST.(live := true);
    [ Init(CFG), State(Preparing, Init(CFG).data), State(Building, Init(CFG).data), State(Sending, built),
      State(Classifying, sent), State(Logging(Continue), sent.(outcome := Unknown)), State(Spending, judged),
      State(Choosing, judged), State(Announcing(0, FromBackoff), judged), State(Draining(0), judged),
      State(Sleeping(0), LOST), State(Running(Reconcile), LOST) ]
  }

  lemma StopsBegin(i: nat)
    requires i < 5
    ensures Next(CFG, Stops()[i], FirstTry()[i]) == Some(Stops()[i + 1])
  {
    match i
    case 0 =>
    case 1 =>
    case 2 =>
    case 3 =>
    case _ =>
  }

  lemma StopsEnd(i: nat)
    requires 5 <= i < 8
    ensures Next(CFG, Stops()[i], FirstTry()[i]) == Some(Stops()[i + 1])
  {
    assert Stops()[5].data.Logged().history == LOST.history;
    match i
    case 5 =>
    case 6 =>
    case _ =>
  }

  lemma StopsEndAfter(i: nat)
    requires 8 <= i < 11
    ensures Next(CFG, Stops()[i], FirstTry()[i]) == Some(Stops()[i + 1])
  {
    match i
    case 8 =>
    case 9 =>
    case _ =>
  }

  lemma FirstTryRuns()
    ensures Run(CFG, FirstTry()) == Some(State(Running(Reconcile), LOST))
  {
    forall i {:trigger FirstTry()[i]} | 0 <= i < 11
      ensures Next(CFG, Stops()[i], FirstTry()[i]) == Some(Stops()[i + 1])
    {
      if i < 5 {
        StopsBegin(i);
      } else if i < 8 {
        StopsEnd(i);
      } else {
        StopsEndAfter(i);
      }
    }
    Follows(CFG, FirstTry(), Stops(), 11);
    assert FirstTry()[..11] == FirstTry();
  }

  lemma {:induction false} Quiet(trace: seq<Step>, more: seq<Step>)
    requires forall step :: step in more ==> !step.Sent?
    ensures Applied(trace + more) == Applied(trace) && LastApplied(trace + more) == LastApplied(trace)
  {
    if more == [] {
      assert trace + more == trace;
    } else {
      var last := |more| - 1;
      assert (trace + more)[..|trace + more| - 1] == trace + more[..last];
      assert (trace + more)[|trace + more| - 1] == more[last];
      Quiet(trace, more[..last]);
    }
  }

  lemma EffectOfSend(trace: seq<Step>, step: Step)
    requires step.Sent?
    ensures Applied(trace + [step]) == Applied(trace) + if step.applied then 1 else 0
    ensures LastApplied(trace + [step]) == step.applied
  {
    assert (trace + [step])[..|trace|] == trace;
  }

  lemma EffectOfFirst()
    ensures Applied(FirstTry()) == 1 && LastApplied(FirstTry())
  {
    var f := FirstTry();
    Quiet([], f[..3]);
    assert [] + f[..3] == f[..3];
    EffectOfSend(f[..3], f[3]);
    Quiet(f[..3] + [f[3]], f[4..]);
    assert (f[..3] + [f[3]]) + f[4..] == f;
  }

  lemma HookAnswers(v: Verdict, t: State)
    requires !v.Panic? && t == State(AfterPhase(LOST, Reconcile, v), LOST)
    ensures Run(CFG, FirstTry() + Asked(v)) == Some(t)
  {
    FirstTryRuns();
    var f := FirstTry();
    Hop(f, State(Running(Reconcile), LOST), Asked(v)[0], State(Telling(Reconcile, v), LOST));
    Hop(f + [Asked(v)[0]], State(Telling(Reconcile, v), LOST), Asked(v)[1], t);
    assert (f + [Asked(v)[0]]) + [Asked(v)[1]] == f + Asked(v);
  }

  const REBUILT := LOST.Fresh(ORDER)

  /** The same request again, applied again. */
  const AGAIN := Sent(ORDER, Answered(504), false, true)

  lemma SecondTryRuns(asked: seq<Step>)
    requires Run(CFG, asked) == Some(State(Building, LOST))
    ensures Run(CFG, asked + [Built(true)] + [AGAIN]).Some?
  {
    Hop(asked, State(Building, LOST), Built(true), State(Sending, REBUILT));
    Hop(asked + [Built(true)], State(Sending, REBUILT), AGAIN,
        State(Classifying, REBUILT.(attempts := 2, reply := Some(Answered(504)))));
  }

  lemma SecondEffect(v: Verdict)
    ensures Applied(FirstTry() + Asked(v) + [Built(true)] + [AGAIN]) == 2
  {
    EffectOfFirst();
    Quiet(FirstTry(), Asked(v) + [Built(true)]);
    assert FirstTry() + (Asked(v) + [Built(true)]) == FirstTry() + Asked(v) + [Built(true)];
    EffectOfSend(FirstTry() + Asked(v) + [Built(true)], AGAIN);
  }

  /** With a Reconciler that fails open, an inconclusive probe lets the call send again what the server
      has already carried out: the operation is applied twice, though every outcome is sound. */
  lemma FailOpenCanRepeat(e: int) returns (trace: seq<Step>)
    ensures CFG.Normal() && Run(CFG, trace).Some? && Applied(trace) == 2
    ensures SoundOutcomes(trace)
    ensures trace == FirstTry() + Asked(Reconciler(Inconclusive(e), true)) + [Built(true)] + [AGAIN]
  {
    var v := Reconciler(Inconclusive(e), true);
    HookAnswers(v, State(Building, LOST));
    SecondTryRuns(FirstTry() + Asked(v));
    SecondEffect(v);
    trace := FirstTry() + Asked(v) + [Built(true)] + [AGAIN];
  }

  /** What is entered in the ledger stays there. */
  lemma {:induction false} LedgerOf(trace: seq<Step>, i: nat)
    requires i < |trace| && trace[i] == Released(1)
    ensures Freed(1) in Ledger(trace)
  {
    var before := trace[..|trace| - 1];
    if i < |before| {
      LedgerOf(before, i);
    } else {
      assert Ledger(trace)[|Ledger(before)|] == Freed(1);
    }
  }

  /** A reconcile hook that hands back the attempt's own response gets it through, though it has been
      drained: the call ends as reconciled with a response that the engine released. */
  lemma LateHookReturnsDrained() returns (trace: seq<Step>)
    ensures CFG.Normal()
    ensures Run(CFG, trace) == Some(State(Halted(Some(Final(Some(Received(1)), Label.Reconciled, None))), LOST))
    ensures Freed(1) in Ledger(trace)
  {
    var v := Succeed(Some(Received(1)));
    var end := Final(Some(Received(1)), Label.Reconciled, None);
    HookAnswers(v, State(Leaving(end), LOST));
    Hop(FirstTry() + Asked(v), State(Leaving(end), LOST), Emit(CallDone(1, Label.Reconciled)),
        State(Halted(Some(end)), LOST));
    trace := FirstTry() + Asked(v) + [Emit(CallDone(1, Label.Reconciled))];
    LedgerOf(trace, 9);
  }

  /** A gate that does not let a retry wait. */
  const GATED := Config(2, 0, 0, true, 0, 0, 0, 0, 0, 0, 0, ORDER)

  /** The data of the call once its first attempt has got its answer. */
  const BUSY := Data(1, 1, NoBody, [Record(1, Answered(503), NotApplied)], false, None, ORDER,
                     Some(Answered(503)), NotApplied, None, true)

  const SHUT := BUSY.(live := false, reason := Some(DownstreamDown))

  const DOWN := Final(None, Unhealthy, Some(ExhaustedError(1, BUSY.history, DownstreamDown, LastStatus(503))))

  /** The answer is 503, the budget grants a retry, and then the gate is found shut. */
  function ShutOut(): seq<Step> {
    [ Emit(CallStart), Prepared(NoBody), Built(true), Observed(false), Sent(ORDER, Answered(503), false, false),
      Classified(NotApplied), Reported(NotApplied), Emit(AttemptDone(1, Answered(503), NotApplied, false)),
      Budgeted(true), Chosen(0, None), Emit(Wait(1, 0, FromBackoff)), Released(1), Observed(true),
      Emit(Gate(AtRetry, Rejected)), Emit(CallDone(1, Unhealthy)) ]
  }

  function ShutStops(): seq<State> {
    var init := Init(GATED).data;
    var built := init.Fresh(ORDER);
    var sent := built.(attempts := 1, reply := Some(Answered(503)));
    var judged := sent.(outcome := NotApplied);
    [ Init(GATED), State(Preparing, init), State(Building, init), State(StartChecking, built), State(Sending, built),
      State(Classifying, sent), State(Reporting, judged), State(Logging(Continue), judged), State(Spending, BUSY),
      State(Choosing, BUSY), State(Announcing(0, FromBackoff), BUSY), State(Draining(0), BUSY),
      State(PauseChecking(0), BUSY.(live := false)), State(Rejecting(AtRetry), BUSY.(live := false)),
      State(Leaving(DOWN), SHUT), State(Halted(Some(DOWN)), SHUT) ]
  }

  lemma ShutBegins(i: nat)
    requires i < 7
    ensures Next(GATED, ShutStops()[i], ShutOut()[i]) == Some(ShutStops()[i + 1])
  {
    match i
    case 0 =>
    case 1 =>
    case 2 =>
    case 3 =>
    case 4 =>
    case 5 =>
    case _ =>
  }

  lemma ShutEnds(i: nat)
    requires 7 <= i < 11
    ensures Next(GATED, ShutStops()[i], ShutOut()[i]) == Some(ShutStops()[i + 1])
  {
    assert ShutStops()[7].data.Logged().history == BUSY.history;
    match i
    case 7 =>
    case 8 =>
    case 9 =>
    case _ =>
  }

  lemma ShutEndsAfter(i: nat)
    requires 11 <= i < 15
    ensures Next(GATED, ShutStops()[i], ShutOut()[i]) == Some(ShutStops()[i + 1])
  {
    match i
    case 11 =>
    case 12 =>
    case 13 =>
    case _ =>
  }

  lemma {:induction false} Ungranted(trace: seq<Step>, more: seq<Step>)
    requires forall step :: step in more ==> !step.Budgeted?
    ensures Grants(trace + more) == Grants(trace)
  {
    if more == [] {
      assert trace + more == trace;
    } else {
      var last := |more| - 1;
      assert (trace + more)[..|trace + more| - 1] == trace + more[..last];
      assert (trace + more)[|trace + more| - 1] == more[last];
      Ungranted(trace, more[..last]);
    }
  }

  lemma GrantsOf(before: seq<Step>, after: seq<Step>)
    requires forall step :: step in before + after ==> !step.Budgeted?
    ensures Grants(before + [Budgeted(true)] + after) == 1
  {
    assert forall step :: step in before || step in after ==> step in before + after;
    Ungranted([], before);
    assert [] + before == before;
    assert (before + [Budgeted(true)])[..|before|] == before;
    Ungranted(before + [Budgeted(true)], after);
  }

  lemma ShutOutIsGranted()
    ensures Grants(ShutOut()) == 1
  {
    GrantsOf(ShutOut()[..8], ShutOut()[9..]);
    assert ShutOut()[..8] + [Budgeted(true)] + ShutOut()[9..] == ShutOut();
  }

  /** A call that got an answer gives up with an error instead, as the answer has been drained when the gate
      is asked; and the token for the retry that never came is gone. */
  lemma ShutGateCostsTheResponse()
    ensures GATED.Normal() && Run(GATED, ShutOut()) == Some(State(Halted(Some(DOWN)), SHUT))
    ensures SHUT.Answered() && DOWN.resp == None && DOWN.err.value.ExhaustedError?
    ensures Grants(ShutOut()) == SHUT.attempts == 1
  {
    forall i {:trigger ShutOut()[i]} | 0 <= i < 15
      ensures Next(GATED, ShutStops()[i], ShutOut()[i]) == Some(ShutStops()[i + 1])
    {
      if i < 7 {
        ShutBegins(i);
      } else if i < 11 {
        ShutEnds(i);
      } else {
        ShutEndsAfter(i);
      }
    }
    Follows(GATED, ShutOut(), ShutStops(), 15);
    assert ShutOut()[..15] == ShutOut();
    ShutOutIsGranted();
  }

  /** Two attempts, one Before hook, no gate. */
  const KEEPING := Config(2, 0, 0, false, 0, 0, 0, 1, 0, 0, 0, ORDER)

  /** The Before hook of the second attempt hands in the response of the first one, which it has kept. */
  const KEPT := Succeed(Some(Received(1)))

  const GIFT := Final(Some(Received(1)), ShortCircuit, None)

  const ASIS := Edit(ORDER, Success, false, None)

  function Keeping(): seq<Step> {
    [ Emit(CallStart), Prepared(NoBody), Built(true), Ran(Before, [Continue], ASIS),
      Emit(HookDone(1, Before, Continue)), Sent(ORDER, Answered(503), false, false), Classified(NotApplied),
      Emit(AttemptDone(1, Answered(503), NotApplied, false)), Budgeted(true), Chosen(0, None),
      Emit(Wait(1, 0, FromBackoff)), Released(1), Slept(0, 0, false),
      Built(true), Ran(Before, [KEPT], ASIS), Emit(HookDone(2, Before, KEPT)), Released(2),
      Emit(CallDone(1, ShortCircuit)) ]
  }

  function KeepingStops(): seq<State> {
    var init := Init(KEEPING).data;
    var built := init.Fresh(ORDER);
    var sent := built.(attempts := 1, reply := Some(Answered(503)));
    var judged := sent.(outcome := NotApplied);
    var again := BUSY.Fresh(ORDER);
    [ Init(KEEPING), State(Preparing, init), State(Building, init), State(Running(Before), built),
      State(Telling(Before, Continue), built), State(Sending, built), State(Classifying, sent),
      State(Logging(Continue), judged), State(Spending, BUSY), State(Choosing, BUSY),
      State(Announcing(0, FromBackoff), BUSY), State(Draining(0), BUSY), State(Sleeping(0), BUSY.(live := false)),
      State(Building, BUSY.(live := false)), State(Running(Before), again), State(Telling(Before, KEPT), again),
      State(Dropping(GIFT), again), State(Leaving(GIFT), again.(live := false)),
      State(Halted(Some(GIFT)), again.(live := false)) ]
  }

  lemma KeepingBegins(i: nat)
    requires i < 5
    ensures Next(KEEPING, KeepingStops()[i], Keeping()[i]) == Some(KeepingStops()[i + 1])
  {
    match i
    case 0 =>
    case 1 =>
    case 2 =>
    case 3 =>
    case _ =>
  }

  lemma KeepingSends(i: nat)
    requires 5 <= i < 9
    ensures Next(KEEPING, KeepingStops()[i], Keeping()[i]) == Some(KeepingStops()[i + 1])
  {
    assert KeepingStops()[7].data.Logged().history == BUSY.history;
    match i
    case 5 =>
    case 6 =>
    case 7 =>
    case _ =>
  }

  lemma KeepingWaits(i: nat)
    requires 9 <= i < 13
    ensures Next(KEEPING, KeepingStops()[i], Keeping()[i]) == Some(KeepingStops()[i + 1])
  {
    match i
    case 9 =>
    case 10 =>
    case 11 =>
    case _ =>
  }

  lemma KeepingEnds(i: nat)
    requires 13 <= i < 18
    ensures Next(KEEPING, KeepingStops()[i], Keeping()[i]) == Some(KeepingStops()[i + 1])
  {
    match i
    case 13 =>
    case 14 =>
    case 15 =>
    case 16 =>
    case _ =>
  }

  /** A Before hook can do it too: the response that comes back was released before the second attempt. */
  lemma KeptResponseReturnsDrained()
    ensures KEEPING.Normal() && Run(KEEPING, Keeping()) == Some(KeepingStops()[18])
    ensures KeepingStops()[18].pc == Halted(Some(GIFT)) && Freed(1) in Ledger(Keeping())
    ensures GIFT == Final(Some(Received(1)), ShortCircuit, None)
  {
    forall i {:trigger Keeping()[i]} | 0 <= i < 18
      ensures Next(KEEPING, KeepingStops()[i], Keeping()[i]) == Some(KeepingStops()[i + 1])
    {
      if i < 5 {
        KeepingBegins(i);
      } else if i < 9 {
        KeepingSends(i);
      } else if i < 13 {
        KeepingWaits(i);
      } else {
        KeepingEnds(i);
      }
    }
    Follows(KEEPING, Keeping(), KeepingStops(), 18);
    assert Keeping()[..18] == Keeping();
    LedgerOf(Keeping(), 11);
  }
}
