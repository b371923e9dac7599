/** The health of a downstream: counters fed by probes and by real traffic, as updated under the lock. */
module Health {
  import opened Base
  import B = Backoff

  datatype Config = Config(
    interval: int, recheck: int, maxRecheck: int,
    failureThreshold: int, successThreshold: int, passiveThreshold: int, holdDown: int)
  {
    predicate Normal() {
      0 < interval && 0 < recheck <= maxRecheck && 1 <= failureThreshold && 1 <= successThreshold
    }
  }

  function Default(value: int, default: int): int {
    if value <= 0 then default else value
  }

  /** The defaults; the probe cap is never below the first probe delay. */
  function WithDefaults(raw: Config): (r: Config)
    ensures r.Normal()
    ensures raw.Normal() ==> r == raw
    ensures raw.interval > 0 ==> r.interval == raw.interval
    ensures raw.recheck > 0 ==> r.recheck == raw.recheck
    ensures raw.maxRecheck > 0 ==> r.maxRecheck == if r.recheck > raw.maxRecheck then r.recheck else raw.maxRecheck
    ensures raw.failureThreshold > 0 ==> r.failureThreshold == raw.failureThreshold
    ensures raw.successThreshold > 0 ==> r.successThreshold == raw.successThreshold
    ensures raw.interval <= 0 ==> r.interval == 10 * SECOND
    ensures raw.recheck <= 0 ==> r.recheck == 2 * SECOND
    ensures raw.maxRecheck <= 0 ==> r.maxRecheck == if r.recheck > 30 * SECOND then r.recheck else 30 * SECOND
    ensures raw.failureThreshold <= 0 ==> r.failureThreshold == 3
    ensures raw.successThreshold <= 0 ==> r.successThreshold == 2
    ensures r.passiveThreshold == raw.passiveThreshold && r.holdDown == raw.holdDown
  {
    var recheck := Default(raw.recheck, 2 * SECOND);
    var maxRecheck := Default(raw.maxRecheck, 30 * SECOND);
    raw.(interval := Default(raw.interval, 10 * SECOND), recheck := recheck,
         maxRecheck := if maxRecheck < recheck then recheck else maxRecheck,
         failureThreshold := Default(raw.failureThreshold, 3), successThreshold := Default(raw.successThreshold, 2))
  }

  /** What the lock protects, apart from the channels. */
  datatype Gauge = Gauge(unhealthy: bool, since: int, probeFails: nat, probeOKs: nat, callFails: nat, probeWait: int)

  function Fresh(now: int): Gauge {
    Gauge(false, now, 0, 0, 0, 0)
  }

  function Tripped(g: Gauge, now: int): Gauge {
    g.(unhealthy := true, since := now, callFails := 0, probeOKs := 0, probeWait := 0)
  }

  /** The delay of the probes grows while the downstream is down. */
  function Grown(cfg: Config, wait: int): int {
    if wait == 0 then cfg.recheck
    else B.Min(cfg.maxRecheck, B.Wrap(2 * wait))
  }

  function Probed(cfg: Config, g: Gauge, ok: bool, now: int): Gauge {
    if ok then
      var g' := g.(probeFails := 0, probeOKs := g.probeOKs + 1);
      if g'.unhealthy && g'.probeOKs >= cfg.successThreshold && now - g'.since >= cfg.holdDown then Fresh(now) else g'
    else
      var g' := g.(probeOKs := 0, probeFails := g.probeFails + 1);
      var g'' := if !g'.unhealthy && g'.probeFails >= cfg.failureThreshold then Tripped(g', now) else g';
      if g''.unhealthy then g''.(probeWait := Grown(cfg, g''.probeWait)) else g''
  }

  /** Traffic can only trip the gate. */
  function Reported(cfg: Config, g: Gauge, failed: bool, now: int): Gauge {
    if cfg.passiveThreshold <= 0 || g.unhealthy then g
    else if !failed then g.(callFails := 0)
    else
      var g' := g.(callFails := g.callFails + 1);
      if g'.callFails >= cfg.passiveThreshold then Tripped(g', now) else g'
  }

  /** The time to the next probe, before jitter. */
  function Pace(cfg: Config, g: Gauge): int {
    if g.unhealthy && g.probeOKs > 0 then cfg.recheck
    else if g.unhealthy then (if g.probeWait <= 0 then cfg.recheck else g.probeWait)
    else if g.probeFails > 0 then cfg.recheck
    else cfg.interval
  }

  datatype Notice = ProbeDone(ok: bool) | Changed(from: bool, to: bool)

  class Channel {
    var closed: bool

    constructor ()
      ensures !closed
    {
      closed := false;
    }

    /** Closing a closed channel panics. */
    method Close()
      requires !closed
      modifies this
      ensures closed
    {
      closed := true;
    }
  }

  class Monitor {
    const cfg: Config
    var unhealthy: bool
    var since: int
    var probeFails: nat
    var probeOKs: nat
    var callFails: nat
    var probeWait: int
    var lastErr: Option<int>
    var ready: Channel
    var kick: bool

    ghost function Reading(): Gauge
      reads this
    {
      Gauge(unhealthy, since, probeFails, probeOKs, callFails, probeWait)
    }

    /** The ready channel is closed exactly while the downstream is healthy. */
    ghost predicate Valid()
      reads this, ready
    {
      cfg.Normal() && (ready.closed <==> !unhealthy)
    }

    constructor (raw: Config, now: int)
      ensures Valid() && cfg == WithDefaults(raw) && Reading() == Fresh(now) && !kick && fresh(ready)
    {
      cfg := WithDefaults(raw);
      unhealthy, since, probeFails, probeOKs, callFails, probeWait := false, now, 0, 0, 0, 0;
      lastErr, kick := None, false;
      ready := new Channel();
      new;
      ready.Close();
    }

    method TripLocked(now: int, cause: int)
      requires !unhealthy && ready.closed
      modifies this
      ensures Reading() == Tripped(old(Reading()), now) && lastErr == Some(cause)
      ensures fresh(ready) && !ready.closed && kick == old(kick)
    {
      unhealthy, since, lastErr := true, now, Some(cause);
      callFails, probeOKs, probeWait := 0, 0, 0;
      ready := new Channel();
    }

    method RecoverLocked(now: int)
      requires unhealthy && !ready.closed
      modifies this, ready
      ensures Reading() == Fresh(now) && lastErr == old(lastErr)
      ensures ready == old(ready) && ready.closed && kick == old(kick)
    {
      unhealthy, since := false, now;
      probeFails, probeOKs, callFails, probeWait := 0, 0, 0, 0;
      ready.Close();
    }

    /** Applies one probe result; the notices go out after the lock is released. */
    method RecordProbe(err: Option<int>, now: int) returns (notices: seq<Notice>)
      requires Valid()
      modifies this, ready
      ensures Valid() && Reading() == Probed(cfg, old(Reading()), err.None?, now) && kick == old(kick)
      ensures lastErr == if err.Some? then err else old(lastErr)
      ensures old(unhealthy) || !unhealthy ==> ready == old(ready)
      ensures !old(unhealthy) && unhealthy ==> fresh(ready) && old(ready).closed
      ensures notices ==
        [ProbeDone(err.None?)] + if old(unhealthy) != unhealthy then [Changed(old(unhealthy), unhealthy)] else []
    {
      var was := unhealthy;
      if err.None? {
        probeFails := 0;
        probeOKs := probeOKs + 1;
        if unhealthy && probeOKs >= cfg.successThreshold && now - since >= cfg.holdDown {
          RecoverLocked(now);
        }
      } else {
        probeOKs := 0;
        probeFails := probeFails + 1;
        lastErr := err;
        if !unhealthy && probeFails >= cfg.failureThreshold {
          TripLocked(now, err.value);
        }
        if unhealthy {
          if probeWait == 0 {
            probeWait := cfg.recheck;
          } else {
            probeWait := B.Wrap(probeWait * 2);
            if probeWait > cfg.maxRecheck {
              probeWait := cfg.maxRecheck;
            }
          }
        }
      }
      notices := [ProbeDone(err.None?)];
      if was != unhealthy {
        notices := notices + [Changed(was, unhealthy)];
      }
    }

    /** Passive feedback from real traffic; a trip wakes the probe loop, which holds at most one token. */
    method Report(failed: bool, cause: int, now: int) returns (notices: seq<Notice>)
      requires Valid()
      modifies this
      ensures Valid() && Reading() == Reported(cfg, old(Reading()), failed, now)
      ensures if !old(unhealthy) && unhealthy then fresh(ready) && kick && lastErr == Some(cause)
              else ready == old(ready) && kick == old(kick) && lastErr == old(lastErr)
      ensures notices == if old(unhealthy) != unhealthy then [Changed(false, true)] else []
    {
      if cfg.passiveThreshold <= 0 {
        return [];
      }
      var was := unhealthy;
      if !unhealthy {
        if failed {
          callFails := callFails + 1;
          if callFails >= cfg.passiveThreshold {
            TripLocked(now, cause);
            kick := true;
          }
        } else {
          callFails := 0;
        }
      }
      return if was != unhealthy then [Changed(was, unhealthy)] else [];
    }

    /** The interval with up to ten percent of jitter. */
    method NextInterval() returns (d: int)
      requires Valid()
      ensures 0 < Pace(cfg, Reading()) && 9 * Pace(cfg, Reading()) <= 10 * d <= 11 * Pace(cfg, Reading())
      ensures !unhealthy && probeFails == 0 ==> 9 * cfg.interval <= 10 * d <= 11 * cfg.interval
      ensures !unhealthy && probeFails > 0 ==> 9 * cfg.recheck <= 10 * d <= 11 * cfg.recheck
      ensures unhealthy && probeOKs > 0 ==> 9 * cfg.recheck <= 10 * d <= 11 * cfg.recheck
      ensures unhealthy && probeOKs == 0 && probeWait > 0 ==> 9 * probeWait <= 10 * d <= 11 * probeWait
      ensures unhealthy && probeOKs == 0 && probeWait <= 0 ==> 9 * cfg.recheck <= 10 * d <= 11 * cfg.recheck
    {
      var pace;
      if unhealthy && probeOKs > 0 {
        pace := cfg.recheck;
      } else if unhealthy {
        pace := probeWait;
        if pace <= 0 {
          pace := cfg.recheck;
        }
      } else if probeFails > 0 {
        pace := cfg.recheck;
      } else {
        pace := cfg.interval;
      }
      assert -pace <= 10 * 0 <= pace;
      var jitter :| -pace <= 10 * jitter <= pace;
      return pace + jitter;
    }
  }

  /** The probe delay after `k` failed probes of an outage. */
  function WaitAfter(cfg: Config, k: nat): int {
    if k == 0 then 0 else Grown(cfg, WaitAfter(cfg, k - 1))
  }

  function IdealWait(cfg: Config, k: nat): int {
    if k == 0 then 0 else B.Min(cfg.maxRecheck, cfg.recheck * B.Pow2(k - 1))
  }

  lemma {:induction false} WaitGrows(cfg: Config, k: nat)
    requires cfg.Normal() && cfg.maxRecheck < B.TWO62
    ensures WaitAfter(cfg, k) == IdealWait(cfg, k)
    ensures k > 0 ==> cfg.recheck <= WaitAfter(cfg, k) <= cfg.maxRecheck
  {
    if k > 0 {
      WaitGrows(cfg, k - 1);
      B.PowerIsMonotone(cfg.recheck, 0, k - 1);
      if k > 1 {
        B.PowGrows(cfg.recheck, k - 2);
      }
    }
  }

  lemma {:induction false} PowerExceeds(base: int, k: nat)
    requires base >= 1
    ensures base * B.Pow2(k) > k
  {
    if k > 0 {
      PowerExceeds(base, k - 1);
      B.PowGrows(base, k - 1);
    }
  }

  /** Where the ideal delay has reached its cap. */
  lemma CapIsReached(cfg: Config)
    requires cfg.Normal()
    ensures IdealWait(cfg, cfg.maxRecheck + 1) == IdealWait(cfg, cfg.maxRecheck + 2) == cfg.maxRecheck
  {
    PowerExceeds(cfg.recheck, cfg.maxRecheck);
    PowerExceeds(cfg.recheck, cfg.maxRecheck + 1);
  }

  /** MAIN RESULT. The probe delay after k failed probes is min(MaxRecheck, Recheck * 2^(k-1)) for every k
      exactly when MaxRecheck is below 2^62 nanoseconds: at the cap the delay is still doubled. */
  lemma ProbeDelayIsExactIff(cfg: Config)
    requires cfg.Normal() && cfg.maxRecheck < B.TWO63
    ensures (forall k: nat :: WaitAfter(cfg, k) == IdealWait(cfg, k)) <==> cfg.maxRecheck < B.TWO62
  {
    if cfg.maxRecheck < B.TWO62 {
      forall k: nat
        ensures WaitAfter(cfg, k) == IdealWait(cfg, k)
      {
        WaitGrows(cfg, k);
      }
    } else {
      CapIsReached(cfg);
      var k := cfg.maxRecheck + 1;
      if WaitAfter(cfg, k) == IdealWait(cfg, k) {
        assert WaitAfter(cfg, k + 1) == Grown(cfg, cfg.maxRecheck) < 0;
      }
    }
  }
}
