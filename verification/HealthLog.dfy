/** What the health counters mean: the state is a function of the log of probes and reports, told in
    terms of the last few entries instead of counters. */
module HealthLog {
  import opened Health
  import B = Backoff

  datatype Entry = Probe(ok: bool, now: int) | Call(failed: bool, now: int)

  function Apply(cfg: Config, g: Gauge, e: Entry): Gauge {
    match e
    case Probe(ok, now) => Probed(cfg, g, ok, now)
    case Call(failed, now) => Reported(cfg, g, failed, now)
  }

  /** The state the code reaches from its counters. */
  function Counted(cfg: Config, start: int, log: seq<Entry>): Gauge {
    if log == [] then Fresh(start) else Apply(cfg, Counted(cfg, start, log[..|log| - 1]), log[|log| - 1])
  }

  function Probes(log: seq<Entry>, ok: bool): seq<bool> {
    if log == [] then []
    else
      var before, e := Probes(log[..|log| - 1], ok), log[|log| - 1];
      if e.Probe? then before + [e.ok == ok] else before
  }

  function Calls(log: seq<Entry>): seq<bool> {
    if log == [] then []
    else
      var before, e := Calls(log[..|log| - 1]), log[|log| - 1];
      if e.Call? then before + [e.failed] else before
  }

  /** The last `k` of the flags are all set. */
  predicate LastAll(flags: seq<bool>, k: nat) {
    k <= |flags| && forall i :: |flags| - k <= i < |flags| ==> flags[i]
  }

  /** An era of health or of outage: the log entries since the last change, and when that was. */
  datatype Era = Era(down: bool, start: nat, at: int)

  /** The last FailureThreshold probes failed, the last of them just now. */
  predicate ProbesTrip(cfg: Config, log: seq<Entry>) {
    log != [] && log[|log| - 1].Probe? && cfg.failureThreshold >= 1 && LastAll(Probes(log, false), cfg.failureThreshold)
  }

  /** The last PassiveThreshold reports of this era failed, the last of them just now. */
  predicate CallsTrip(cfg: Config, era: seq<Entry>) {
    era != [] && era[|era| - 1].Call? && cfg.passiveThreshold >= 1 && LastAll(Calls(era), cfg.passiveThreshold)
  }

  /** The last SuccessThreshold probes of this outage were good, the last of them just now, and the
      hold-down has passed. */
  predicate Recovers(cfg: Config, era: seq<Entry>, at: int) {
    && era != [] && era[|era| - 1].Probe?
    && cfg.successThreshold >= 1 && LastAll(Probes(era, true), cfg.successThreshold)
    && era[|era| - 1].now - at >= cfg.holdDown
  }

  function EraOf(cfg: Config, start: int, log: seq<Entry>): (e: Era)
    ensures e.start <= |log|
  {
    if log == [] then Era(false, 0, start)
    else
      var e := EraOf(cfg, start, log[..|log| - 1]);
      var now := log[|log| - 1].now;
      if e.down then (if Recovers(cfg, log[e.start..], e.at) then Era(false, |log|, now) else e)
      else (if ProbesTrip(cfg, log) || CallsTrip(cfg, log[e.start..]) then Era(true, |log|, now) else e)
  }

  /** How many flags at the end are set in a row. */
  function Trailing(flags: seq<bool>): nat {
    if flags == [] || !flags[|flags| - 1] then 0 else 1 + Trailing(flags[..|flags| - 1])
  }

  lemma {:induction false} TrailingIsAWindow(flags: seq<bool>, k: nat)
    ensures Trailing(flags) >= k <==> LastAll(flags, k)
  {
    if k > 0 && flags != [] && flags[|flags| - 1] {
      TrailingIsAWindow(flags[..|flags| - 1], k - 1);
    }
  }

  lemma TrailingSnoc(flags: seq<bool>, b: bool)
    ensures Trailing(flags + [b]) == if b then Trailing(flags) + 1 else 0
  {
    assert (flags + [b])[..|flags|] == flags;
  }

  /** A good probe ends a row of failures, and a failed one a row of good probes. */
  lemma ProbeRows(log: seq<Entry>, e: Entry)
    requires e.Probe?
    ensures Trailing(Probes(log + [e], false)) == if e.ok then 0 else Trailing(Probes(log, false)) + 1
    ensures Trailing(Probes(log + [e], true)) == if e.ok then Trailing(Probes(log, true)) + 1 else 0
    ensures Calls(log + [e]) == Calls(log)
  {
    assert (log + [e])[..|log|] == log;
    TrailingSnoc(Probes(log, false), !e.ok);
    TrailingSnoc(Probes(log, true), e.ok);
  }

  lemma CallRows(log: seq<Entry>, e: Entry)
    requires e.Call?
    ensures Trailing(Calls(log + [e])) == if e.failed then Trailing(Calls(log)) + 1 else 0
    ensures Probes(log + [e], false) == Probes(log, false) && Probes(log + [e], true) == Probes(log, true)
  {
    assert (log + [e])[..|log|] == log;
    TrailingSnoc(Calls(log), e.failed);
  }

  /** The failed probes of an outage, counting the one that may have tripped it. */
  function Failures(log: seq<Entry>): nat {
    if log == [] then 0
    else
      var e := log[|log| - 1];
      Failures(log[..|log| - 1]) + if e.Probe? && !e.ok then 1 else 0
  }

  lemma FailuresSnoc(log: seq<Entry>, e: Entry)
    ensures Failures(log + [e]) == Failures(log) + if e.Probe? && !e.ok then 1 else 0
  {
    assert (log + [e])[..|log|] == log;
  }

  /** What there is to count: the failed probes at the end of the log; the good probes and the failed
      reports at the end of the era; and the failed probes of an outage, with the one that tripped it. */
  datatype Rows = Rows(fails: nat, oks: nat, calls: nat, failures: nat)

  function RowsOf(log: seq<Entry>, from: nat): Rows
    requires from <= |log|
  {
    Rows(Trailing(Probes(log, false)), Trailing(Probes(log[from..], true)), Trailing(Calls(log[from..])),
         if from >= 1 then Failures(log[from - 1..]) else 0)
  }

  /** The counters against what they count. */
  predicate Tells(cfg: Config, g: Gauge, era: Era, rows: Rows) {
    && g.unhealthy == era.down && g.since == era.at
    && g.probeFails == rows.fails && g.probeOKs == rows.oks
    && g.callFails == (if era.down || cfg.passiveThreshold <= 0 then 0 else rows.calls)
    && (!era.down ==> g.probeWait == 0)
    && (era.down ==> 1 <= era.start && g.probeWait == WaitAfter(cfg, rows.failures))
  }

  predicate Means(cfg: Config, g: Gauge, era: Era, log: seq<Entry>)
    requires era.start <= |log|
  {
    Tells(cfg, g, era, RowsOf(log, era.start))
  }

  lemma EraSnoc(cfg: Config, start: int, log: seq<Entry>, e: Entry)
    ensures EraOf(cfg, start, log).start <= |log|
    ensures var era := EraOf(cfg, start, log);
            var longer := log + [e];
            EraOf(cfg, start, longer) ==
            if era.down then (if Recovers(cfg, longer[era.start..], era.at) then Era(false, |longer|, e.now) else era)
            else if ProbesTrip(cfg, longer) || CallsTrip(cfg, longer[era.start..]) then Era(true, |longer|, e.now)
            else era
  {
    assert (log + [e])[..|log|] == log;
  }

  lemma ProbeSwitches(cfg: Config, log: seq<Entry>, e: Entry, g: Gauge, era: Era)
    requires cfg.Normal() && e.Probe? && era.start <= |log| && Means(cfg, g, era, log)
    ensures ProbesTrip(cfg, log + [e]) <==> !e.ok && g.probeFails + 1 >= cfg.failureThreshold
    ensures Recovers(cfg, (log + [e])[era.start..], era.at) <==>
            e.ok && g.probeOKs + 1 >= cfg.successThreshold && e.now - era.at >= cfg.holdDown
    ensures !CallsTrip(cfg, (log + [e])[era.start..])
  {
    assert (log + [e])[era.start..] == log[era.start..] + [e];
    ProbeRows(log, e);
    ProbeRows(log[era.start..], e);
    TrailingIsAWindow(Probes(log + [e], false), cfg.failureThreshold);
    TrailingIsAWindow(Probes(log[era.start..] + [e], true), cfg.successThreshold);
  }

  lemma CallSwitches(cfg: Config, log: seq<Entry>, e: Entry, g: Gauge, era: Era)
    requires cfg.Normal() && e.Call? && era.start <= |log| && Means(cfg, g, era, log)
    ensures !era.down ==> (CallsTrip(cfg, (log + [e])[era.start..]) <==>
              cfg.passiveThreshold > 0 && e.failed && g.callFails + 1 >= cfg.passiveThreshold)
    ensures !ProbesTrip(cfg, log + [e]) && !Recovers(cfg, (log + [e])[era.start..], era.at)
  {
    assert (log + [e])[era.start..] == log[era.start..] + [e];
    CallRows(log[era.start..], e);
    if cfg.passiveThreshold > 0 {
      TrailingIsAWindow(Calls(log[era.start..] + [e]), cfg.passiveThreshold);
    }
  }

  lemma LongerFailures(log: seq<Entry>, e: Entry, from: nat)
    requires from <= |log|
    ensures Failures((log + [e])[from..]) == Failures(log[from..]) + if e.Probe? && !e.ok then 1 else 0
  {
    assert (log + [e])[from..] == log[from..] + [e];
    FailuresSnoc(log[from..], e);
  }

  /** The rows after one more entry of the same era. */
  function Longer(rows: Rows, from: nat, e: Entry): Rows {
    match e
    case Probe(ok, _) =>
      if ok then rows.(fails := 0, oks := rows.oks + 1)
      else rows.(fails := rows.fails + 1, oks := 0, failures := if from >= 1 then rows.failures + 1 else 0)
    case Call(failed, _) => rows.(calls := if failed then rows.calls + 1 else 0)
  }

  /** The rows after an entry that begins a new era. */
  function Anew(rows: Rows, e: Entry): Rows {
    match e
    case Probe(ok, _) => if ok then Rows(0, 0, 0, 0) else Rows(rows.fails + 1, 0, 0, 1)
    case Call(_, _) => Rows(rows.fails, 0, 0, 0)
  }

  lemma AnewRows(log: seq<Entry>, e: Entry, from: nat)
    requires from <= |log|
    ensures RowsOf(log + [e], |log| + 1) == Anew(RowsOf(log, from), e)
  {
    if e.Probe? { ProbeRows(log, e); } else { CallRows(log, e); }
    assert (log + [e])[|log| + 1..] == [] && log[|log|..] == [];
    LongerFailures(log, e, |log|);
  }

  lemma LongerRows(log: seq<Entry>, e: Entry, from: nat)
    requires from <= |log|
    ensures RowsOf(log + [e], from) == Longer(RowsOf(log, from), from, e)
  {
    assert (log + [e])[from..] == log[from..] + [e];
    if e.Probe? {
      ProbeRows(log, e);
      ProbeRows(log[from..], e);
    } else {
      CallRows(log, e);
      CallRows(log[from..], e);
    }
    if from > 0 {
      LongerFailures(log, e, from - 1);
    }
  }

  function EraAfter(cfg: Config, g: Gauge, era: Era, e: Entry, end: nat): Era {
    match e
    case Probe(ok, now) =>
      if era.down && ok && g.probeOKs + 1 >= cfg.successThreshold && now - era.at >= cfg.holdDown then
        Era(false, end, now)
      else if !era.down && !ok && g.probeFails + 1 >= cfg.failureThreshold then Era(true, end, now)
      else era
    case Call(failed, now) =>
      if !era.down && cfg.passiveThreshold > 0 && failed && g.callFails + 1 >= cfg.passiveThreshold then
        Era(true, end, now)
      else era
  }

  /** What an entry does to the era, told by the counters. */
  lemma EraFollows(cfg: Config, start: int, log: seq<Entry>, e: Entry, g: Gauge)
    requires cfg.Normal() && Means(cfg, g, EraOf(cfg, start, log), log)
    ensures EraOf(cfg, start, log + [e]) == EraAfter(cfg, g, EraOf(cfg, start, log), e, |log| + 1)
  {
    EraSnoc(cfg, start, log, e);
    if e.Probe? {
      ProbeSwitches(cfg, log, e, g, EraOf(cfg, start, log));
    } else {
      CallSwitches(cfg, log, e, g, EraOf(cfg, start, log));
    }
  }

  lemma EntryTells(cfg: Config, g: Gauge, era: Era, e: Entry, end: nat, rows: Rows)
    requires cfg.Normal() && Tells(cfg, g, era, rows)
    ensures var era' := EraAfter(cfg, g, era, e, end + 1);
            Tells(cfg, Apply(cfg, g, e), era', if era' == era then Longer(rows, era.start, e) else Anew(rows, e))
  {
    assert WaitAfter(cfg, 1) == Grown(cfg, WaitAfter(cfg, 0));
    assert WaitAfter(cfg, rows.failures + 1) == Grown(cfg, WaitAfter(cfg, rows.failures));
  }

  lemma EntryMeans(cfg: Config, log: seq<Entry>, e: Entry, g: Gauge, era: Era)
    requires cfg.Normal() && era.start <= |log| && Means(cfg, g, era, log)
    ensures Means(cfg, Apply(cfg, g, e), EraAfter(cfg, g, era, e, |log| + 1), log + [e])
  {
    EntryTells(cfg, g, era, e, |log|, RowsOf(log, era.start));
    if EraAfter(cfg, g, era, e, |log| + 1) == era {
      LongerRows(log, e, era.start);
    } else {
      AnewRows(log, e, era.start);
    }
  }

  /** MAIN RESULT. After any log of probes and reports the counters say that the downstream is down
      exactly when the log does: an outage begins when the last FailureThreshold probes failed or the last
      PassiveThreshold reports since the last change failed, and ends only on a probe, when the last
      SuccessThreshold probes of the outage were good and the hold-down has passed. */
  lemma {:induction false} CountersMeanTheLog(cfg: Config, start: int, log: seq<Entry>)
    requires cfg.Normal()
    ensures Means(cfg, Counted(cfg, start, log), EraOf(cfg, start, log), log)
  {
    if log != [] {
      var before, e := log[..|log| - 1], log[|log| - 1];
      CountersMeanTheLog(cfg, start, before);
      assert log == before + [e];
      var g, era := Counted(cfg, start, before), EraOf(cfg, start, before);
      EraFollows(cfg, start, before, e, g);
      EntryMeans(cfg, before, e, g, era);
    }
  }

  /** MAIN RESULT. The probe delay doubles with every failed probe of the outage, good probes in between
      or not, up to its cap; while the downstream is down the pace of the probes is within bounds. */
  lemma ProbeDelayOfAnOutage(cfg: Config, start: int, log: seq<Entry>)
    requires cfg.Normal() && cfg.maxRecheck < B.TWO62 && EraOf(cfg, start, log).down
    ensures 1 <= EraOf(cfg, start, log).start
    ensures var g := Counted(cfg, start, log);
            var k := Failures(log[EraOf(cfg, start, log).start - 1..]);
            && g.probeWait == (if k == 0 then 0 else B.Min(cfg.maxRecheck, cfg.recheck * B.Pow2(k - 1)))
            && cfg.recheck <= Pace(cfg, g) <= cfg.maxRecheck
            && (g.probeOKs > 0 ==> Pace(cfg, g) == cfg.recheck)
            && (g.probeOKs == 0 && k > 0 ==> Pace(cfg, g) == g.probeWait)
  {
    CountersMeanTheLog(cfg, start, log);
    WaitGrows(cfg, Failures(log[EraOf(cfg, start, log).start - 1..]));
  }

  /** The last probe of the log, if there is one, has failed. */
  predicate EndsInFailure(log: seq<Entry>) {
    if log == [] then false
    else if log[|log| - 1].Probe? then !log[|log| - 1].ok
    else EndsInFailure(log[..|log| - 1])
  }

  lemma {:induction false} FailureIsTrailing(log: seq<Entry>)
    ensures EndsInFailure(log) <==> Trailing(Probes(log, false)) > 0
  {
    if log != [] {
      var before, e := log[..|log| - 1], log[|log| - 1];
      assert log == before + [e];
      FailureIsTrailing(before);
      if e.Probe? {
        ProbeRows(before, e);
      } else {
        CallRows(before, e);
      }
    }
  }

  /** MAIN RESULT. While the downstream is healthy the probes come at the plain interval, or at the recheck
      delay exactly if the last probe has failed, whatever the traffic reports in between. */
  lemma {:induction false} ProbePaceOfHealth(cfg: Config, start: int, log: seq<Entry>)
    requires cfg.Normal() && !EraOf(cfg, start, log).down
    ensures Pace(cfg, Counted(cfg, start, log)) == if EndsInFailure(log) then cfg.recheck else cfg.interval
  {
    CountersMeanTheLog(cfg, start, log);
    FailureIsTrailing(log);
  }
}
