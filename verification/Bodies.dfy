/** Request bodies: buffering them so that every attempt can send the same bytes. */
module Bodies {
  import opened Base
  import opened Protocol
  import opened Counting
  import opened History
  import opened Labels
  import opened Story
  import B = Backoff

  const MAX_LIMIT := B.TWO63 - 1
  const TOO_LARGE := 1
  const READ_ERROR := 2

  /** A byte stream that is read from front to back; `fault` streams end in an error. */
  class Reader {
    const data: seq<Byte>
    const fault: bool
    var pos: nat
    var closed: bool

    ghost predicate Valid()
      reads this
    {
      pos <= |data|
    }

    function Remaining(): seq<Byte>
      reads this
      requires Valid()
    {
      data[pos..]
    }

    constructor (data: seq<Byte>, fault: bool)
      ensures this.data == data && this.fault == fault && pos == 0 && !closed && Valid()
    {
      this.data, this.fault, pos, closed := data, fault, 0, false;
    }

    /** Gives some of the remaining bytes, at least one and at most `asked`; nothing at the end. */
    method Read(asked: int) returns (chunk: seq<Byte>)
      requires Valid() && asked > 0
      modifies this`pos
      ensures Valid() && chunk + Remaining() == old(Remaining())
      ensures |chunk| <= asked && (chunk == [] <==> old(Remaining()) == [])
    {
      if pos == |data| {
        return [];
      }
      var k :| 1 <= k <= asked && k <= |data| - pos;
      chunk := data[pos..pos + k];
      pos := pos + k;
    }
  }

  /** Reads until `limit` bytes have come or the stream has ended. */
  method ReadAll(r: Reader, limit: int) returns (buf: seq<Byte>, failed: bool)
    requires r.Valid()
    modifies r`pos
    ensures r.Valid() && buf + r.Remaining() == old(r.Remaining())
    ensures |buf| == Clip(limit, |old(r.Remaining())|)
    ensures failed <==> r.fault && |old(r.Remaining())| < limit
  {
    buf := [];
    while |buf| < limit
      invariant r.Valid() && buf + r.Remaining() == old(r.Remaining())
      invariant |buf| <= Max(0, limit)
      decreases |r.Remaining()|, limit - |buf|
    {
      var chunk := r.Read(limit - |buf|);
      if chunk == [] {
        return buf, r.fault;
      }
      buf := buf + chunk;
    }
    failed := false;
  }

  /** The bytes that end up in the buffer: `limit + 1` is 64-bit arithmetic. */
  function Buffer(body: seq<Byte>, limit: int): seq<Byte> {
    body[..Clip(B.Wrap(limit + 1), |body|)]
  }

  /** How the body can be produced for each attempt. A body without GetBody is buffered up to the limit;
      without a limit it is sent as it is, once. */
  function PlanFor(present: bool, getBody: bool, body: seq<Byte>, fault: bool, limit: int): Plan {
    if !present then NoBody
    else if getBody then CallerRewinds
    else if limit <= 0 then OneShot
    else if fault && |body| < B.Wrap(limit + 1) then Broken(READ_ERROR)
    else if |Buffer(body, limit)| > limit then Broken(TOO_LARGE)
    else Buffered
  }

  method BodyReplayer(body: Reader?, getBody: bool, limit: int) returns (plan: Plan, data: seq<Byte>)
    requires body != null ==> body.pos == 0
    requires B.Int64(limit)
    modifies body
    ensures body == null ==> plan == NoBody == PlanFor(false, getBody, [], false, limit)
    ensures body != null ==> plan == PlanFor(true, getBody, body.data, body.fault, limit)
    // GetBody is preferred whatever the limit; the body itself is then closed unread.
    ensures body != null && getBody ==> plan == CallerRewinds && body.closed && body.pos == 0
    ensures body != null && !getBody ==> (plan == OneShot <==> limit <= 0) && plan != NoBody && plan != CallerRewinds
    ensures plan.Buffered? ==> data == Buffer(body.data, limit)
    ensures plan.OneShot? ==> body.pos == 0 && body.closed == old(body.closed)
    ensures body != null && !plan.OneShot? ==> body.closed
  {
    if body == null {
      return NoBody, [];
    }
    if getBody {
      body.closed := true;
      return CallerRewinds, [];
    }
    if limit <= 0 {
      return OneShot, [];
    }
    assert body.Remaining() == body.data;
    var failed;
    data, failed := ReadAll(body, B.Wrap(limit + 1));
    assert data == body.data[..|data|];
    body.closed := true;
    if failed {
      return Broken(READ_ERROR), data;
    }
    if |data| > limit {
      return Broken(TOO_LARGE), data;
    }
    plan := Buffered;
  }

  /** A reader for one attempt. All of them read the one buffer, each from its own position. */
  class Replay {
    const buf: array<Byte>
    var pos: nat

    ghost predicate Valid()
      reads this
    {
      pos <= buf.Length
    }

    constructor (buf: array<Byte>)
      ensures this.buf == buf && pos == 0 && Valid()
    {
      this.buf, pos := buf, 0;
    }

    /** Copies out up to `asked` bytes. */
    method Read(asked: nat) returns (chunk: seq<Byte>)
      requires Valid()
      modifies this`pos
      ensures Valid() && pos == old(pos) + |chunk|
      ensures chunk == buf[old(pos)..pos] && |chunk| == Clip(asked, buf.Length - old(pos))
    {
      var k := Clip(asked, buf.Length - pos);
      chunk := buf[pos..pos + k];
      pos := pos + k;
    }
  }

  /** What the sends of a body saw of it: each asked for so many bytes. */
  predicate SawItsBytes(data: seq<Byte>, asked: seq<nat>, seen: seq<seq<Byte>>) {
    |seen| <= |asked| && forall i :: 0 <= i < |seen| ==> seen[i] == data[..Clip(asked[i], |data|)]
  }

  /** What is refused, in terms of the length. */
  lemma Refusals(body: seq<Byte>, fault: bool, limit: int)
    requires B.Int64(limit) && limit < MAX_LIMIT
    ensures var plan := PlanFor(true, false, body, fault, limit);
            && (plan == Broken(TOO_LARGE) <==> 0 < limit < |body|)
            && (plan == Broken(READ_ERROR) <==> fault && 0 < limit && |body| <= limit)
            && (plan == Buffered ==> Buffer(body, limit) == body)
            && (!plan.Broken? ==> plan == if limit > 0 then Buffered else OneShot)
  {
    if 0 < limit {
      assert B.Wrap(limit + 1) == limit + 1;
      assert |body| <= limit ==> body[..|body|] == body;
    }
  }

  /** Every send reads a fresh reader of the one buffer. */
  method SendBuffered(shared: array<Byte>, asked: seq<nat>) returns (seen: seq<seq<Byte>>)
    ensures |seen| == |asked| && SawItsBytes(shared[..], asked, seen)
  {
    seen := [];
    while |seen| < |asked|
      invariant |seen| <= |asked| && SawItsBytes(shared[..], asked, seen)
    {
      var r := new Replay(shared);
      var chunk := r.Read(asked[|seen|]);
      seen := seen + [chunk];
    }
  }

  /** MAIN RESULT. A body without GetBody, sent as often as it may be, each send reading as much of it as it
      likes, whole or in part: with a limit, a longer body is refused and nothing is sent, and otherwise
      every send sees the original bytes from the first on, whatever the sends before it have read; without
      a limit the body is sent as it is and only once. A body that breaks off within the limit is refused. */
  method SendBody(body: Reader, limit: int, asked: seq<nat>) returns (plan: Plan, seen: seq<seq<Byte>>)
    requires body.pos == 0 && B.Int64(limit) && limit < MAX_LIMIT
    modifies body
    ensures plan == Broken(TOO_LARGE) <==> 0 < limit < |body.data|
    ensures plan == Broken(READ_ERROR) <==> body.fault && 0 < limit && |body.data| <= limit
    ensures plan.Broken? ==> seen == []
    ensures !plan.Broken? ==> plan == if limit > 0 then Buffered else OneShot
    ensures plan.Buffered? ==> |seen| == |asked| && body.closed
    ensures plan.OneShot? ==> |seen| == (if asked == [] then 0 else 1)
    ensures SawItsBytes(body.data, asked, seen)
  {
    var data;
    seen := [];
    plan, data := BodyReplayer(body, false, limit);
    Refusals(body.data, body.fault, limit);
    if plan.Broken? {
      return;
    }
    if plan.OneShot? {
      if asked != [] {
        assert body.Remaining() == body.data;
        var buf, failed := ReadAll(body, asked[0]);
        assert buf == body.data[..|buf|];
        seen := [buf];
      }
      return;
    }
    var shared := new Byte[|data|](i requires 0 <= i < |data| => data[i]);
    assert shared[..] == data == body.data;
    seen := SendBuffered(shared, asked);
  }

  /** A body within the limit is buffered whole, a longer one is refused. */
  predicate BufferedRightly(body: seq<Byte>, limit: int) {
    if |body| > limit then PlanFor(true, false, body, false, limit) == Broken(TOO_LARGE)
    else PlanFor(true, false, body, false, limit) == Buffered && Buffer(body, limit) == body
  }

  /** MAIN RESULT. Buffering is right for every body and every positive limit, except for a body that is
      not empty under the largest limit, which loses its bytes. */
  lemma BufferingIsRightIff(body: seq<Byte>, limit: int)
    requires 0 < limit <= MAX_LIMIT
    ensures BufferedRightly(body, limit) <==> limit < MAX_LIMIT || body == []
    ensures limit == MAX_LIMIT ==> Buffer(body, limit) == []
  {
    if limit < MAX_LIMIT {
      assert B.Wrap(limit + 1) == limit + 1;
      if |body| <= limit {
        assert Buffer(body, limit) == body[..|body|] == body;
      }
    } else {
      assert B.Wrap(limit + 1) == -B.TWO63;
    }
  }

  /** No step leads back to the opening, and only the first one leads on from it. */
  predicate Opened(s: State, t: State) {
    t.pc != Opening && (t.pc == Preparing ==> s.pc == Opening)
  }

  lemma OpenedUnbuilt(cfg: Config, s: State, step: Step)
    requires StageOf(s.pc) == Unbuilt && NextUnbuilt(cfg, s, step).Some?
    ensures Opened(s, NextUnbuilt(cfg, s, step).value)
  {
  }

  lemma OpenedUnsent(cfg: Config, s: State, step: Step)
    requires StageOf(s.pc) == Unsent && NextUnsent(cfg, s, step).Some?
    ensures Opened(s, NextUnsent(cfg, s, step).value)
  {
    UnsentFrame(cfg, s, step);
  }

  lemma OpenedInFlight(cfg: Config, s: State, step: Step)
    requires StageOf(s.pc) == InFlight && NextInFlight(cfg, s, step).Some?
    ensures Opened(s, NextInFlight(cfg, s, step).value)
  {
    InFlightFrame(cfg, s, step);
  }

  lemma OpenedJudged(cfg: Config, s: State, step: Step)
    requires StageOf(s.pc) == Judged && NextJudged(cfg, s, step).Some?
    ensures Opened(s, NextJudged(cfg, s, step).value)
  {
    JudgedFrame(cfg, s, step);
  }

  lemma OpenedResting(cfg: Config, s: State, step: Step)
    requires StageOf(s.pc) == Resting && NextResting(cfg, s, step).Some?
    ensures Opened(s, NextResting(cfg, s, step).value)
  {
    RestingFrame(cfg, s, step);
  }

  lemma OpenedEnding(cfg: Config, s: State, step: Step)
    requires StageOf(s.pc) == Ending && NextEnding(cfg, s, step).Some?
    ensures Opened(s, NextEnding(cfg, s, step).value)
  {
    EndingFrame(cfg, s, step);
  }

  lemma OpenedStep(cfg: Config, s: State, step: Step)
    requires Next(cfg, s, step).Some?
    ensures Opened(s, Next(cfg, s, step).value)
  {
    match StageOf(s.pc)
    case Unbuilt => OpenedUnbuilt(cfg, s, step);
    case Unsent => OpenedUnsent(cfg, s, step);
    case InFlight => OpenedInFlight(cfg, s, step);
    case Judged => OpenedJudged(cfg, s, step);
    case Resting => OpenedResting(cfg, s, step);
    case Ending => OpenedEnding(cfg, s, step);
  }

  lemma OpensFirst(cfg: Config, trace: seq<Step>)
    requires Run(cfg, trace).Some? && Run(cfg, trace).value.pc == Preparing
    ensures |trace| == 1
  {
    var before := trace[..|trace| - 1];
    OpenedStep(cfg, Run(cfg, before).value, trace[|trace| - 1]);
    if before != [] {
      OpenedStep(cfg, Run(cfg, before[..|before| - 1]).value, before[|before| - 1]);
    }
  }

  /** A body is prepared once, as the second step of a run. */
  lemma PreparedOnce(cfg: Config, trace: seq<Step>, i: nat)
    requires Run(cfg, trace).Some? && i < |trace| && trace[i].Prepared?
    ensures i == 1
    decreases |trace|
  {
    var before := trace[..|trace| - 1];
    if i < |before| {
      PreparedOnce(cfg, before, i);
    } else {
      PreparesOnlyAtFirst(cfg, Run(cfg, before).value, trace[i]);
      OpensFirst(cfg, before);
    }
  }

  /** No step changes how the body is produced, but its preparation. */
  lemma PlanStays(cfg: Config, s: State, step: Step)
    requires Next(cfg, s, step).Some?
    ensures Next(cfg, s, step).value.data.plan == if step.Prepared? then step.plan else s.data.plan
  {
    match StageOf(s.pc)
    case Unbuilt =>
    case Unsent => UnsentFrame(cfg, s, step);
    case InFlight => InFlightFrame(cfg, s, step);
    case Judged => JudgedFrame(cfg, s, step);
    case Resting => RestingFrame(cfg, s, step);
    case Ending => EndingFrame(cfg, s, step);
  }

  lemma {:induction false} PlanIsKept(cfg: Config, trace: seq<Step>, plan: Plan)
    requires Run(cfg, trace).Some? && |trace| > 1 && trace[1] == Prepared(plan)
    ensures Run(cfg, trace).value.data.plan == plan
  {
    var last := |trace| - 1;
    if trace[last].Prepared? {
      PreparedOnce(cfg, trace, last);
    }
    if last > 1 {
      PlanIsKept(cfg, trace[..last], plan);
    }
    PlanStays(cfg, Run(cfg, trace[..last]).value, trace[last]);
  }

  /** MAIN RESULT. A call is given up for a body that cannot be sent again only if there is one, without
      GetBody and without a positive limit for buffering it; and such a call sends at most once. */
  lemma {:induction false} NotReplayableOnlyIfOneShot(cfg: Config, trace: seq<Step>, s: State, f: Final,
                                                      present: bool, getBody: bool, body: seq<Byte>, fault: bool,
                                                      limit: int)
    requires cfg.Normal() && Run(cfg, trace) == Some(s) && s.pc == Halted(Some(f))
    requires |trace| > 1 && trace[1] == Prepared(PlanFor(present, getBody, body, fault, limit))
    ensures f.result == NotReplayable ==> present && !getBody && limit <= 0
    ensures present && !getBody && limit <= 0 ==> |Replies(trace)| <= 1
  {
    PlanIsKept(cfg, trace, PlanFor(present, getBody, body, fault, limit));
    LabelTellsTheEnding(cfg, trace, s);
    HistoryIsFaithful(cfg, trace, Some(f));
  }

  /** A story of a broken body goes back to its preparation, or to a GetBody that failed. */
  lemma {:induction false} BrokenIsTold(cfg: Config, trace: seq<Step>) returns (i: nat)
    requires Told(cfg, trace).BodyBroken? && Told(cfg, trace).err != 0
    ensures i < |trace| && trace[i] == Prepared(Broken(Told(cfg, trace).err))
  {
    var before := trace[..|trace| - 1];
    if trace[|trace| - 1].Prepared? && trace[|trace| - 1].plan.Broken? {
      i := |trace| - 1;
    } else {
      i := BrokenIsTold(cfg, before);
    }
  }

  /** MAIN RESULT. A call whose body is prepared in this way ends with the too-large error exactly if the
      body is longer than a positive limit, and then it has sent nothing. */
  lemma {:induction false} EndsTooLargeIff(cfg: Config, trace: seq<Step>, s: State, f: Final,
                                           body: seq<Byte>, fault: bool, limit: int)
    requires cfg.Normal() && Run(cfg, trace) == Some(s) && s.pc == Halted(Some(f))
    requires B.Int64(limit) && limit < MAX_LIMIT
    requires |trace| > 1 && trace[1] == Prepared(PlanFor(true, false, body, fault, limit))
    ensures f == BodyFailure(TOO_LARGE) <==> 0 < limit < |body|
    ensures 0 < limit < |body| ==> Replies(trace) == []
  {
    Refusals(body, fault, limit);
    if 0 < limit < |body| {
      BrokenBodySendsNothing(cfg, trace, s, 1);
    }
    if f == BodyFailure(TOO_LARGE) {
      LabelTellsTheEnding(cfg, trace, s);
      var i := BrokenIsTold(cfg, trace);
      PreparedOnce(cfg, trace, i);
    }
  }
}
