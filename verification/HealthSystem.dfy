/** The health of a downstream as its goroutines see it: one prober, any number of reporters and any
    number of waiters. Each locked region is one move; the clock that a probe is stamped with is read
    in a move of its own, before the lock is taken. */
module HealthSystem {
  import opened Base
  import opened Health
  import opened HealthLog
  import B = Backoff

  datatype Prober =
    | Waiting(due: int)
    | Checking
    | Stamped(ok: bool, now: int)
    | Planning
    | Stopped

  datatype Waiter = Looking | Blocked(on: nat) | Returned | Cancelled

  /** The failed probes of the present outage, counting one that tripped it: how many, when the first and
      the last were recorded, and after how many of them the kick started a probe ahead of time. */
  datatype Tally = Tally(fails: nat, first: int, last: int, kicked: nat)

  /** Channels are numbered; `epoch` is the one in use and `closed` the closed ones. */
  datatype System = System(
    clock: int, g: Gauge, epoch: nat, closed: set<nat>, panicked: bool,
    kick: bool, prober: Prober, waiters: map<nat, Waiter>, tally: Tally)

  datatype Move =
    | Tick(elapsed: nat)
    | TimerFires | KickTaken | Checked(ok: bool) | Recorded | Planned(jitter: int) | Stop
    | Report(failed: bool)
    | Arrive(id: nat) | Look(id: nat) | Wake(id: nat) | Cancel(id: nat)

  function Begin(start: int): System {
    System(start, Fresh(start), 0, {0}, false, false, Waiting(start), map[], Tally(0, start, start, 0))
  }

  /** The channels follow the gauge: a trip makes a new one, a recovery closes the one in use. */
  function Switched(s: System, g: Gauge): System {
    if !s.g.unhealthy && g.unhealthy then s.(g := g, epoch := s.epoch + 1)
    else if s.g.unhealthy && !g.unhealthy then
      s.(g := g, closed := s.closed + {s.epoch}, panicked := s.panicked || s.epoch in s.closed)
    else s.(g := g)
  }

  function Tallied(t: Tally, was: bool, g: Gauge, failedProbe: bool, clock: int): Tally {
    var t' := if !was && g.unhealthy then Tally(0, clock, clock, 0) else t;
    if failedProbe && g.unhealthy then
      t'.(fails := t'.fails + 1, first := if t'.fails == 0 then clock else t'.first, last := clock)
    else t'
  }

  function ProberMove(cfg: Config, s: System, m: Move): Option<System> {
    match m
    case TimerFires =>
      if s.prober.Waiting? && s.prober.due <= s.clock then Some(s.(prober := Checking)) else None
    case KickTaken =>
      if s.prober.Waiting? && s.kick then
        Some(s.(prober := Checking, kick := false,
                tally := if s.g.unhealthy then s.tally.(kicked := s.tally.fails) else s.tally))
      else None
    case Checked(ok) =>
      if s.prober.Checking? then Some(s.(prober := Stamped(ok, s.clock))) else None
    case Recorded =>
      if s.prober.Stamped? then
        var g := Probed(cfg, s.g, s.prober.ok, s.prober.now);
        Some(Switched(s, g).(prober := Planning, tally := Tallied(s.tally, s.g.unhealthy, g, !s.prober.ok, s.clock)))
      else None
    case Planned(jitter) =>
      var pace := Pace(cfg, s.g);
      if s.prober.Planning? && -pace <= 10 * jitter <= pace then Some(s.(prober := Waiting(s.clock + pace + jitter)))
      else None
    case Stop =>
      if s.prober.Waiting? || s.prober.Checking? then Some(s.(prober := Stopped)) else None
    case _ => None
  }

  function ReportMove(cfg: Config, s: System, failed: bool): System {
    var g := Reported(cfg, s.g, failed, s.clock);
    Switched(s, g).(kick := s.kick || (!s.g.unhealthy && g.unhealthy),
                    tally := Tallied(s.tally, s.g.unhealthy, g, false, s.clock))
  }

  function WaiterMove(s: System, m: Move): Option<System> {
    match m
    case Arrive(id) => if id in s.waiters then None else Some(s.(waiters := s.waiters[id := Looking]))
    case Look(id) =>
      if id in s.waiters && s.waiters[id].Looking? then
        Some(s.(waiters := s.waiters[id := if s.g.unhealthy then Blocked(s.epoch) else Returned]))
      else None
    case Wake(id) =>
      if id in s.waiters && s.waiters[id].Blocked? && s.waiters[id].on in s.closed then
        Some(s.(waiters := s.waiters[id := Looking]))
      else None
    case Cancel(id) =>
      if id in s.waiters && s.waiters[id].Blocked? then Some(s.(waiters := s.waiters[id := Cancelled])) else None
    case _ => None
  }

  function Next(cfg: Config, s: System, m: Move): Option<System> {
    match m
    case Tick(elapsed) => Some(s.(clock := s.clock + elapsed))
    case Report(failed) => Some(ReportMove(cfg, s, failed))
    case Arrive(_) => WaiterMove(s, m)
    case Look(_) => WaiterMove(s, m)
    case Wake(_) => WaiterMove(s, m)
    case Cancel(_) => WaiterMove(s, m)
    case _ => ProberMove(cfg, s, m)
  }

  function Run(cfg: Config, start: int, ms: seq<Move>): Option<System> {
    if ms == [] then Some(Begin(start))
    else
      var before := Run(cfg, start, ms[..|ms| - 1]);
      if before.None? then None else Next(cfg, before.value, ms[|ms| - 1])
  }

  lemma RunSnoc(cfg: Config, start: int, ms: seq<Move>, m: Move)
    ensures Run(cfg, start, ms + [m]) ==
            if Run(cfg, start, ms).None? then None else Next(cfg, Run(cfg, start, ms).value, m)
  {
    assert (ms + [m])[..|ms|] == ms;
  }

  // ---------------------------------------------------------------- no lost wakeup

  ghost predicate ChannelsInv(s: System) {
    && !s.panicked
    && (s.epoch in s.closed <==> !s.g.unhealthy)
    && (forall c: nat :: c in s.closed ==> c <= s.epoch)
    && (forall c: nat :: c < s.epoch ==> c in s.closed)
    && (forall id :: id in s.waiters && s.waiters[id].Blocked? ==> s.waiters[id].on <= s.epoch)
  }

  lemma SwitchKeepsChannels(s: System, g: Gauge)
    requires ChannelsInv(s)
    ensures ChannelsInv(Switched(s, g))
  {
  }

  lemma ChannelsStep(cfg: Config, s: System, m: Move)
    requires ChannelsInv(s) && Next(cfg, s, m).Some?
    ensures ChannelsInv(Next(cfg, s, m).value)
  {
    match m
    case Report(failed) => SwitchKeepsChannels(s, Reported(cfg, s.g, failed, s.clock));
    case Recorded => SwitchKeepsChannels(s, Probed(cfg, s.g, s.prober.ok, s.prober.now));
    case _ =>
  }

  lemma {:induction false} ChannelsAlways(cfg: Config, start: int, ms: seq<Move>)
    requires Run(cfg, start, ms).Some?
    ensures ChannelsInv(Run(cfg, start, ms).value)
  {
    if ms != [] {
      var before := ms[..|ms| - 1];
      ChannelsAlways(cfg, start, before);
      ChannelsStep(cfg, Run(cfg, start, before).value, ms[|ms| - 1]);
    }
  }

  /** MAIN RESULT. In every reachable state the channel in use is closed exactly when the downstream is
      healthy and the older ones are all closed; none was closed twice. A blocked waiter is stuck only
      while the downstream is down and it blocks on the channel in use: whoever blocked on an older one
      can wake, however often the gate has tripped again since. */
  lemma {:induction false} NoLostWakeup(cfg: Config, start: int, ms: seq<Move>, id: nat)
    requires Run(cfg, start, ms).Some?
    ensures var s := Run(cfg, start, ms).value;
            && !s.panicked
            && (forall c: nat :: c in s.closed <==> c < s.epoch || (c == s.epoch && !s.g.unhealthy))
            && (id in s.waiters && s.waiters[id].Blocked? ==>
                  (Next(cfg, s, Wake(id)).None? <==> s.g.unhealthy && s.waiters[id].on == s.epoch))
  {
    ChannelsAlways(cfg, start, ms);
  }

  /** Once the downstream is healthy again, a blocked waiter is two moves from returning. */
  lemma BlockedWaiterReturns(cfg: Config, start: int, ms: seq<Move>, id: nat)
    requires Run(cfg, start, ms).Some?
    requires var s := Run(cfg, start, ms).value; !s.g.unhealthy && id in s.waiters && s.waiters[id].Blocked?
    ensures var end := Run(cfg, start, ms + [Wake(id), Look(id)]);
            end.Some? && id in end.value.waiters && end.value.waiters[id] == Returned
  {
    NoLostWakeup(cfg, start, ms, id);
    assert ms + [Wake(id), Look(id)] == (ms + [Wake(id)]) + [Look(id)];
    RunSnoc(cfg, start, ms, Wake(id));
    RunSnoc(cfg, start, ms + [Wake(id)], Look(id));
  }

  /** MAIN RESULT. A waiter returns only after a look under the lock that saw the downstream healthy. */
  lemma {:induction false} ReturnsOnlyWhenHealthy(cfg: Config, start: int, ms: seq<Move>, id: nat) returns (i: nat)
    requires Run(cfg, start, ms).Some?
    requires id in Run(cfg, start, ms).value.waiters && Run(cfg, start, ms).value.waiters[id] == Returned
    ensures i < |ms| && ms[i] == Look(id)
    ensures Run(cfg, start, ms[..i]).Some? && !Run(cfg, start, ms[..i]).value.g.unhealthy
  {
    var before := ms[..|ms| - 1];
    var s := Run(cfg, start, before).value;
    if id in s.waiters && s.waiters[id] == Returned {
      i := ReturnsOnlyWhenHealthy(cfg, start, before, id);
      assert before[..i] == ms[..i];
    } else {
      i := |ms| - 1;
    }
  }

  // ---------------------------------------------------------------- the hold-down under the clock race

  /** A probe may be stamped before a trip that it is recorded after. */
  ghost predicate ClockInv(cfg: Config, s: System) {
    && s.g.since <= s.clock
    && (s.prober.Stamped? ==>
          && s.prober.now <= s.clock
          && (s.g.since <= s.prober.now || (s.g.unhealthy && s.g.probeOKs == 0 && cfg.passiveThreshold > 0)))
  }

  /** When no stamp can turn the clock back. */
  predicate Steady(cfg: Config) {
    cfg.holdDown >= 0 || cfg.passiveThreshold <= 0 || cfg.successThreshold > 1
  }

  lemma ClockStep(cfg: Config, s: System, m: Move)
    requires cfg.Normal() && Steady(cfg) && ClockInv(cfg, s) && Next(cfg, s, m).Some?
    ensures var s' := Next(cfg, s, m).value; ClockInv(cfg, s') && s.g.since <= s'.g.since
  {
  }

  lemma {:induction false} ClockAlways(cfg: Config, start: int, ms: seq<Move>)
    requires cfg.Normal() && Steady(cfg) && Run(cfg, start, ms).Some?
    ensures ClockInv(cfg, Run(cfg, start, ms).value)
  {
    if ms != [] {
      ClockAlways(cfg, start, ms[..|ms| - 1]);
      ClockStep(cfg, Run(cfg, start, ms[..|ms| - 1]).value, ms[|ms| - 1]);
    }
  }

  /** No move of any run takes `since` back. */
  ghost predicate NeverBack(cfg: Config, start: int) {
    forall ms: seq<Move>, m: Move {:trigger Run(cfg, start, ms + [m])} ::
      Run(cfg, start, ms).Some? && Run(cfg, start, ms + [m]).Some? ==>
        Run(cfg, start, ms).value.g.since <= Run(cfg, start, ms + [m]).value.g.since
  }

  function Failed(k: nat): seq<Move> {
    if k == 0 then [] else Failed(k - 1) + [Report(true)]
  }

  /** A probe is stamped, and then `k` reports of failure come in first. */
  function Overtaken(k: nat): seq<Move> {
    [TimerFires, Checked(true), Tick(1)] + Failed(k)
  }

  /** The state after the probe was stamped and `k` reports have come in. */
  function Overtook(cfg: Config, start: int, k: nat): System {
    var s := Begin(start).(clock := start + 1, prober := Stamped(true, start));
    if k == 0 || k < cfg.passiveThreshold then s.(g := s.g.(callFails := k))
    else s.(g := Tripped(s.g, start + 1), epoch := 1, kick := true, tally := Tally(0, start + 1, start + 1, 0))
  }

  lemma OvertakingBegins(cfg: Config, start: int)
    ensures Run(cfg, start, Overtaken(0)) == Some(Overtook(cfg, start, 0))
  {
    RunSnoc(cfg, start, [], TimerFires);
    RunSnoc(cfg, start, [TimerFires], Checked(true));
    RunSnoc(cfg, start, [TimerFires, Checked(true)], Tick(1));
    assert Overtaken(0) == [TimerFires, Checked(true)] + [Tick(1)];
    assert [TimerFires, Checked(true)] == [TimerFires] + [Checked(true)];
    assert [] + [TimerFires] == [TimerFires];
  }

  lemma OvertakingStep(cfg: Config, start: int, k: nat)
    requires k < cfg.passiveThreshold
    ensures Next(cfg, Overtook(cfg, start, k), Report(true)) == Some(Overtook(cfg, start, k + 1))
  {
  }

  lemma {:induction false} Overtaking(cfg: Config, start: int, k: nat)
    requires cfg.passiveThreshold >= k
    ensures Run(cfg, start, Overtaken(k)) == Some(Overtook(cfg, start, k))
  {
    if k == 0 {
      OvertakingBegins(cfg, start);
    } else {
      Overtaking(cfg, start, k - 1);
      assert Overtaken(k) == Overtaken(k - 1) + [Report(true)];
      RunSnoc(cfg, start, Overtaken(k - 1), Report(true));
      OvertakingStep(cfg, start, k - 1);
    }
  }

  /** MAIN RESULT. A probe reads the clock before it takes the lock and a report inside it. All the same
      `since` never moves backwards, exactly when the hold-down is not negative, or traffic cannot trip the
      gate, or one good probe is not enough to recover. */
  lemma SinceNeverMovesBackIff(cfg: Config, start: int)
    requires cfg.Normal()
    ensures NeverBack(cfg, start) <==> Steady(cfg)
  {
    if Steady(cfg) {
      forall ms: seq<Move>, m: Move | Run(cfg, start, ms).Some? && Run(cfg, start, ms + [m]).Some?
        ensures Run(cfg, start, ms).value.g.since <= Run(cfg, start, ms + [m]).value.g.since
      {
        RunSnoc(cfg, start, ms, m);
        ClockAlways(cfg, start, ms);
        ClockStep(cfg, Run(cfg, start, ms).value, m);
      }
    } else {
      var k := cfg.passiveThreshold;
      Overtaking(cfg, start, k);
      RunSnoc(cfg, start, Overtaken(k), Recorded);
      assert Run(cfg, start, Overtaken(k) + [Recorded]).value.g.since == start;
    }
  }

  /** The downstream is down in every state from the first `k` moves on. */
  ghost predicate DownSince(cfg: Config, start: int, ms: seq<Move>, k: nat)
    requires Run(cfg, start, ms).Some? && k <= |ms|
  {
    forall i {:trigger ms[..i]} :: k <= i <= |ms| ==>
      Run(cfg, start, ms[..i]).Some? && Run(cfg, start, ms[..i]).value.g.unhealthy
  }

  lemma DownStep(cfg: Config, s: System, m: Move)
    requires s.g.unhealthy && Next(cfg, s, m).Some? && Next(cfg, s, m).value.g.unhealthy
    ensures Next(cfg, s, m).value.g.since == s.g.since && Next(cfg, s, m).value.epoch == s.epoch
  {
  }

  /** Nothing but the end of an outage changes when it is said to have begun, or its channel. */
  lemma {:induction false} OutageStands(cfg: Config, start: int, ms: seq<Move>, k: nat)
    requires cfg.Normal() && Run(cfg, start, ms).Some? && k <= |ms| && DownSince(cfg, start, ms, k)
    ensures Run(cfg, start, ms[..k]).Some?
    ensures var s, t := Run(cfg, start, ms[..k]).value, Run(cfg, start, ms).value;
            t.g.since == s.g.since && t.epoch == s.epoch
    decreases |ms|
  {
    assert ms[..|ms|] == ms;
    if k < |ms| {
      var before := ms[..|ms| - 1];
      forall i | k <= i <= |before|
        ensures before[..i] == ms[..i]
      {
      }
      OutageStands(cfg, start, before, k);
      assert Run(cfg, start, ms[..|ms| - 1]).value.g.unhealthy && Run(cfg, start, ms[..|ms|]).value.g.unhealthy;
      DownStep(cfg, Run(cfg, start, before).value, ms[|ms| - 1]);
    }
  }

  /** MAIN RESULT. An outage that began with the trip after `k` moves ends only with the recording of a good
      probe, stamped at least the hold-down after the trip; it closes the channel that the trip made, on
      which the waiters of this outage block. */
  lemma {:induction false} RecoveryHoldsDown(cfg: Config, start: int, ms: seq<Move>, k: nat, m: Move)
    requires cfg.Normal() && Run(cfg, start, ms).Some? && k <= |ms| && DownSince(cfg, start, ms, k)
    requires Next(cfg, Run(cfg, start, ms).value, m).Some? && !Next(cfg, Run(cfg, start, ms).value, m).value.g.unhealthy
    ensures Run(cfg, start, ms[..k]).Some?
    ensures var trip, s := Run(cfg, start, ms[..k]).value, Run(cfg, start, ms).value;
            var t := Next(cfg, s, m).value;
            && m == Recorded && s.prober.Stamped? && s.prober.ok
            && t.g.since == s.prober.now && t.g.since - trip.g.since >= cfg.holdDown
            && t.epoch == trip.epoch && trip.epoch !in s.closed && t.closed == s.closed + {trip.epoch}
  {
    OutageStands(cfg, start, ms, k);
    ChannelsAlways(cfg, start, ms);
    assert ms[..|ms|] == ms;
  }

  // ---------------------------------------------------------------- the load of the probes

  /** The sum of the delays between `k` failed probes. */
  function Gaps(cfg: Config, k: nat): int {
    if k == 0 then 0 else Gaps(cfg, k - 1) + WaitAfter(cfg, k - 1)
  }

  /** Those delays but the one the kick cut short. */
  function Owed(cfg: Config, k: nat, kicked: nat): int {
    Gaps(cfg, k) - if kicked < k then WaitAfter(cfg, kicked) else 0
  }

  /** Nine tenths of what is owed has passed. */
  predicate Paid(cfg: Config, k: nat, t: Tally, time: int) {
    10 * (time - t.first) >= 9 * Owed(cfg, k, t.kicked)
  }

  ghost predicate LoadInv(cfg: Config, s: System) {
    var t := s.tally;
    s.g.unhealthy ==>
      && s.g.probeWait == WaitAfter(cfg, t.fails)
      && t.kicked <= t.fails && (s.kick ==> t.kicked == 0)
      && (t.fails >= 1 ==>
            && t.first <= t.last <= s.clock && Paid(cfg, t.fails, t, t.last)
            && match s.prober
               case Waiting(due) => Paid(cfg, t.fails + 1, t, due)
               case Planning => s.g.probeOKs > 0 ==> Paid(cfg, t.fails + 1, t, s.clock)
               case Stopped => true
               case _ => Paid(cfg, t.fails + 1, t, s.clock))
  }

  lemma OwedGrows(cfg: Config, k: nat, kicked: nat)
    requires kicked <= k
    ensures Owed(cfg, k + 1, kicked) == if kicked == k then Gaps(cfg, k) else Owed(cfg, k, kicked) + WaitAfter(cfg, k)
    ensures Owed(cfg, k, k) == Owed(cfg, k, 0) == Gaps(cfg, k)
  {
  }

  lemma RecordedLoad(cfg: Config, s: System)
    requires cfg.Normal() && LoadInv(cfg, s) && ProberMove(cfg, s, Recorded).Some?
    ensures LoadInv(cfg, ProberMove(cfg, s, Recorded).value)
  {
    OwedGrows(cfg, 0, 0);
    assert WaitAfter(cfg, s.tally.fails + 1) == Grown(cfg, WaitAfter(cfg, s.tally.fails));
  }

  lemma PlannedLoad(cfg: Config, s: System, jitter: int)
    requires cfg.Normal() && cfg.maxRecheck < B.TWO62 && LoadInv(cfg, s) && ProberMove(cfg, s, Planned(jitter)).Some?
    ensures LoadInv(cfg, ProberMove(cfg, s, Planned(jitter)).value)
  {
    var t := s.tally;
    if s.g.unhealthy && t.fails >= 1 {
      OwedGrows(cfg, t.fails, t.kicked);
      WaitGrows(cfg, t.fails);
    }
  }

  lemma KickedLoad(cfg: Config, s: System)
    requires LoadInv(cfg, s) && ProberMove(cfg, s, KickTaken).Some?
    ensures LoadInv(cfg, ProberMove(cfg, s, KickTaken).value)
  {
    OwedGrows(cfg, s.tally.fails, s.tally.fails);
  }

  lemma LoadStep(cfg: Config, s: System, m: Move)
    requires cfg.Normal() && cfg.maxRecheck < B.TWO62 && LoadInv(cfg, s) && Next(cfg, s, m).Some?
    ensures LoadInv(cfg, Next(cfg, s, m).value)
  {
    match m
    case Recorded => RecordedLoad(cfg, s);
    case Planned(jitter) => PlannedLoad(cfg, s, jitter);
    case KickTaken => KickedLoad(cfg, s);
    case _ =>
  }

  lemma {:induction false} LoadAlways(cfg: Config, start: int, ms: seq<Move>)
    requires cfg.Normal() && cfg.maxRecheck < B.TWO62 && Run(cfg, start, ms).Some?
    ensures LoadInv(cfg, Run(cfg, start, ms).value)
  {
    if ms != [] {
      LoadAlways(cfg, start, ms[..|ms| - 1]);
      LoadStep(cfg, Run(cfg, start, ms[..|ms| - 1]).value, ms[|ms| - 1]);
    }
  }

  function IdealGaps(cfg: Config, k: nat): int {
    if k == 0 then 0 else IdealGaps(cfg, k - 1) + IdealWait(cfg, k - 1)
  }

  lemma {:induction false} GapsAreIdeal(cfg: Config, k: nat)
    requires cfg.Normal() && cfg.maxRecheck < B.TWO62
    ensures Gaps(cfg, k) == IdealGaps(cfg, k)
  {
    if k > 0 {
      GapsAreIdeal(cfg, k - 1);
      WaitGrows(cfg, k - 1);
    }
  }

  /** MAIN RESULT. The kick channel holds one token, so in an outage at most one probe runs ahead of its
      timer: `k` failed probes take at least nine tenths of all the delays min(MaxRecheck, Recheck * 2^(i-1))
      between them but one. */
  lemma ProbeLoadIsBounded(cfg: Config, start: int, ms: seq<Move>) returns (skipped: nat)
    requires cfg.Normal() && cfg.maxRecheck < B.TWO62 && Run(cfg, start, ms).Some?
    requires Run(cfg, start, ms).value.g.unhealthy
    ensures var t := Run(cfg, start, ms).value.tally;
            t.fails >= 1 ==>
              && skipped < t.fails
              && 10 * (t.last - t.first) >= 9 * (IdealGaps(cfg, t.fails) - IdealWait(cfg, skipped))
  {
    LoadAlways(cfg, start, ms);
    var t := Run(cfg, start, ms).value.tally;
    skipped := if t.kicked < t.fails then t.kicked else 0;
    GapsAreIdeal(cfg, t.fails);
    WaitGrows(cfg, skipped);
  }

  // ---------------------------------------------------------------- the next probe

  lemma KickWaits(cfg: Config, s: System, m: Move)
    requires s.kick && m != KickTaken && Next(cfg, s, m).Some?
    ensures Next(cfg, s, m).value.kick
  {
  }

  /** MAIN RESULT. A trip by traffic is not left to the timer: whatever happens meanwhile, the kick stays until
      the prober takes it, and a prober that waits can take it and check at once. */
  lemma {:induction false} TrafficTripIsProbed(cfg: Config, start: int, ms: seq<Move>, k: nat)
    requires Run(cfg, start, ms).Some? && k < |ms| && ms[k].Report?
    requires Run(cfg, start, ms[..k]).Some? && !Run(cfg, start, ms[..k]).value.g.unhealthy
    requires Run(cfg, start, ms[..k + 1]).Some? && Run(cfg, start, ms[..k + 1]).value.g.unhealthy
    requires forall i :: k < i < |ms| ==> ms[i] != KickTaken
    ensures var s := Run(cfg, start, ms).value;
            && s.kick
            && (s.prober.Waiting? ==> Next(cfg, s, KickTaken).Some? && Next(cfg, s, KickTaken).value.prober == Checking)
    decreases |ms|
  {
    var before := ms[..|ms| - 1];
    if k < |before| {
      assert before[..k] == ms[..k] && before[..k + 1] == ms[..k + 1];
      TrafficTripIsProbed(cfg, start, before, k);
      KickWaits(cfg, Run(cfg, start, before).value, ms[|ms| - 1]);
    } else {
      assert ms[..k + 1] == ms && ms[..k + 1][..k] == ms[..k];
    }
  }

  /** A probe that is waited for is due within the longest pace and its jitter. */
  predicate DueSoon(cfg: Config, s: System) {
    s.prober.Waiting? ==>
      10 * (s.prober.due - s.clock) <= 11 * cfg.interval || 10 * (s.prober.due - s.clock) <= 11 * cfg.maxRecheck
  }

  lemma DueStep(cfg: Config, s: System, m: Move)
    requires cfg.Normal() && cfg.maxRecheck < B.TWO62 && LoadInv(cfg, s) && DueSoon(cfg, s) && Next(cfg, s, m).Some?
    ensures DueSoon(cfg, Next(cfg, s, m).value)
  {
    if m.Planned? && s.g.unhealthy {
      WaitGrows(cfg, s.tally.fails);
    }
  }

  /** MAIN RESULT. In every reachable state the next probe is no further away than the interval or the largest
      recheck delay, with the jitter, so no outage and no recovery goes unnoticed for longer than that. */
  lemma {:induction false} NextProbeIsNear(cfg: Config, start: int, ms: seq<Move>)
    requires cfg.Normal() && cfg.maxRecheck < B.TWO62 && Run(cfg, start, ms).Some?
    ensures DueSoon(cfg, Run(cfg, start, ms).value)
  {
    if ms != [] {
      var before := ms[..|ms| - 1];
      NextProbeIsNear(cfg, start, before);
      LoadAlways(cfg, start, before);
      DueStep(cfg, Run(cfg, start, before).value, ms[|ms| - 1]);
    }
  }

  function Logged(s: System, m: Move): seq<Entry> {
    match m
    case Recorded => if s.prober.Stamped? then [Probe(s.prober.ok, s.prober.now)] else []
    case Report(failed) => [Call(failed, s.clock)]
    case _ => []
  }

  // ---------------------------------------------------------------- the order of the locked regions

  /** What was recorded and reported, in the order in which the lock was taken. */
  function LogOf(cfg: Config, start: int, ms: seq<Move>): seq<Entry>
    requires Run(cfg, start, ms).Some?
  {
    if ms == [] then []
    else
      var before, m := ms[..|ms| - 1], ms[|ms| - 1];
      LogOf(cfg, start, before) + Logged(Run(cfg, start, before).value, m)
  }

  lemma GaugeStep(cfg: Config, start: int, log: seq<Entry>, s: System, m: Move)
    requires s.g == Counted(cfg, start, log) && Next(cfg, s, m).Some?
    ensures Next(cfg, s, m).value.g == Counted(cfg, start, log + Logged(s, m))
  {
    var e := Logged(s, m);
    if e == [] {
      assert log + e == log;
    } else {
      assert (log + e)[..|log|] == log;
    }
  }

  /** MAIN RESULT. Under every interleaving of prober, reporters and waiters the state is the one that the
      log of probes and reports means, so all that is said of logs holds of every concurrent run. */
  lemma {:induction false} EveryRunIsItsLog(cfg: Config, start: int, ms: seq<Move>)
    requires cfg.Normal() && Run(cfg, start, ms).Some?
    ensures Run(cfg, start, ms).value.g == Counted(cfg, start, LogOf(cfg, start, ms))
    ensures Means(cfg, Run(cfg, start, ms).value.g, EraOf(cfg, start, LogOf(cfg, start, ms)), LogOf(cfg, start, ms))
  {
    if ms != [] {
      var before := ms[..|ms| - 1];
      EveryRunIsItsLog(cfg, start, before);
      GaugeStep(cfg, start, LogOf(cfg, start, before), Run(cfg, start, before).value, ms[|ms| - 1]);
    }
    CountersMeanTheLog(cfg, start, LogOf(cfg, start, ms));
  }

  lemma OutageInLog(cfg: Config, start: int, ms: seq<Move>)
    requires cfg.Normal() && Run(cfg, start, ms).Some?
    ensures var era := EraOf(cfg, start, LogOf(cfg, start, ms));
            era.down == Run(cfg, start, ms).value.g.unhealthy && (era.down ==> era.start >= 1)
  {
    EveryRunIsItsLog(cfg, start, ms);
  }

  function FailedProbe(e: Entry): nat {
    if e.Probe? && !e.ok then 1 else 0
  }

  /** The tally against the log of the outage it is for. */
  predicate Tallies(log: seq<Entry>, era: Era, fails: nat)
    requires era.start <= |log|
  {
    era.down ==> 1 <= era.start && fails == Failures(log[era.start - 1..])
  }

  /** What the entries of one move make of the tally. */
  predicate Adds(down: bool, fails: nat, es: seq<Entry>, fails': nat) {
    if es == [] then down && fails' == fails
    else |es| == 1 && fails' == (if down then fails else 0) + FailedProbe(es[0])
  }

  lemma TallyStep(cfg: Config, s: System, m: Move, s': System)
    requires Next(cfg, s, m) == Some(s') && s'.g.unhealthy
    ensures Adds(s.g.unhealthy, s.tally.fails, Logged(s, m), s'.tally.fails)
  {
  }

  lemma OutageStep(cfg: Config, start: int, log: seq<Entry>, es: seq<Entry>, fails: nat, fails': nat)
    requires Tallies(log, EraOf(cfg, start, log), fails) && Adds(EraOf(cfg, start, log).down, fails, es, fails')
    ensures Tallies(log + es, EraOf(cfg, start, log + es), fails')
  {
    var era := EraOf(cfg, start, log);
    if es == [] {
      assert log + es == log;
    } else {
      assert es == [es[0]];
      EraSnoc(cfg, start, log, es[0]);
      LongerFailures(log, es[0], if era.down then era.start - 1 else |log|);
      assert log[|log|..] == [];
    }
  }

  /** The tally counts what it says: the failed probes of the outage in the log. */
  lemma {:induction false} TallyCountsTheOutage(cfg: Config, start: int, ms: seq<Move>)
    requires cfg.Normal() && Run(cfg, start, ms).Some?
    ensures var log := LogOf(cfg, start, ms);
            Tallies(log, EraOf(cfg, start, log), Run(cfg, start, ms).value.tally.fails)
  {
    OutageInLog(cfg, start, ms);
    if ms != [] && Run(cfg, start, ms).value.g.unhealthy {
      var before, m := ms[..|ms| - 1], ms[|ms| - 1];
      var s, s' := Run(cfg, start, before).value, Run(cfg, start, ms).value;
      OutageInLog(cfg, start, before);
      TallyCountsTheOutage(cfg, start, before);
      TallyStep(cfg, s, m, s');
      OutageStep(cfg, start, LogOf(cfg, start, before), Logged(s, m), s.tally.fails, s'.tally.fails);
    }
  }
}
