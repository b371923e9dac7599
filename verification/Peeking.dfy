/** Looking at the beginning of a response body without anyone noticing. */
module Peeking {
  import opened Base

  /** A response body: what the connection still has to give, or bytes put back in front of another body.
      A connection may fail once its bytes are used up; `id` tells connections apart. */
  datatype Body =
    | Wire(rest: seq<Byte>, fault: bool, id: int)
    | Layered(front: seq<Byte>, under: Body)
  {
    /** Everything a reader will still see. */
    function Contents(): seq<Byte> {
      match this
      case Wire(rest, _, _) => rest
      case Layered(front, under) => front + under.Contents()
    }

    function Fails(): bool {
      match this
      case Wire(_, fault, _) => fault
      case Layered(_, under) => under.Fails()
    }

    /** The connection that closing this body closes. */
    function Source(): int {
      match this
      case Wire(_, _, id) => id
      case Layered(_, under) => under.Source()
    }

    /** One read of at most `k` bytes, never across a layer, as a reader of readers does it. */
    function Take(k: nat): (r: (seq<Byte>, Body))
      requires 1 <= k
    {
      match this
      case Wire(rest, fault, id) =>
        if k <= |rest| then (rest[..k], Wire(rest[k..], fault, id)) else (rest, Wire([], fault, id))
      case Layered(front, under) =>
        if front == [] then var (chunk, u) := under.Take(k); (chunk, Layered([], u))
        else if k <= |front| then (front[..k], Layered(front[k..], under))
        else (front, Layered([], under))
    }
  }

  /** A read takes bytes off the front of the contents and changes nothing else. */
  lemma {:induction false} TakeIsAPrefix(b: Body, k: nat)
    requires 1 <= k
    ensures var (chunk, left) := b.Take(k);
            && chunk + left.Contents() == b.Contents() && |chunk| <= k
            && (chunk == [] <==> b.Contents() == [])
            && left.Fails() == b.Fails() && left.Source() == b.Source()
  {
    match b
    case Wire(_, _, _) =>
    case Layered(front, under) =>
      TakeIsAPrefix(under, k);
      if front == [] {
        var (chunk, u) := under.Take(k);
        assert Layered([], u).Contents() == u.Contents();
        assert b.Contents() == under.Contents();
      } else if k <= |front| {
        assert front[..k] + (front[k..] + under.Contents()) == front + under.Contents();
      }
  }

  class Response {
    const status: int
    var body: Body
    var closed: set<int>
    /** Everything read from the body so far and not put back. */
    ghost var consumed: seq<Byte>

    constructor (body: Body, status: int)
      ensures this.body == body && this.status == status && closed == {} && consumed == []
    {
      this.body, this.status, closed, consumed := body, status, {}, [];
    }

    /** All the bytes this response was made with. */
    ghost function Whole(): seq<Byte>
      reads this
    {
      consumed + body.Contents()
    }

    /** A partial read, of as many bytes as the reader below cares to give. */
    method Read(asked: nat) returns (chunk: seq<Byte>)
      requires asked >= 1
      modifies this`body, this`consumed
      ensures Whole() == old(Whole()) && consumed == old(consumed) + chunk && |chunk| <= asked
      ensures chunk == [] <==> old(body.Contents()) == []
      ensures body.Fails() == old(body.Fails()) && body.Source() == old(body.Source())
    {
      var k: nat :| 1 <= k <= asked;
      TakeIsAPrefix(body, k);
      var (c, left) := body.Take(k);
      chunk, body := c, left;
      consumed := consumed + chunk;
    }

    /** Reads up to `limit` bytes and puts them back. It fails if the stream breaks off before that. */
    method PeekBody(limit: int) returns (buf: seq<Byte>, failed: bool)
      modifies this`body
      ensures body.Contents() == old(body.Contents()) && Whole() == old(Whole())
      ensures buf == old(body.Contents())[..Clip(limit, |old(body.Contents())|)]
      ensures failed <==> old(body.Fails()) && |old(body.Contents())| < limit
      ensures body.Fails() == old(body.Fails()) && body.Source() == old(body.Source())
    {
      buf, failed := [], false;
      var left := body;
      while |buf| < limit
        invariant |buf| <= (if limit < 0 then 0 else limit)
        invariant buf + left.Contents() == body.Contents()
        invariant left.Fails() == body.Fails() && left.Source() == body.Source()
        invariant !failed && body == old(body)
        decreases |left.Contents()|, limit - |buf|
      {
        var k: nat :| 1 <= k <= limit - |buf|;
        TakeIsAPrefix(left, k);
        var (chunk, rest) := left.Take(k);
        if chunk == [] {
          failed := left.Fails();
          break;
        }
        assert buf + chunk + rest.Contents() == buf + (chunk + rest.Contents());
        buf, left := buf + chunk, rest;
      }
      body := Layered(buf, left);
    }

    method Close()
      modifies this`closed
      ensures closed == old(closed) + {body.Source()}
    {
      closed := closed + {body.Source()};
    }
  }

  /** What the start of a body makes of a successful attempt; a broken stream leaves its outcome unknown. */
  function Judged(body: Body, limit: int, status: int, judge: (int, seq<Byte>) -> Option<Outcome>): Outcome {
    if body.Fails() && |body.Contents()| < limit then Unknown
    else
      match judge(status, body.Contents()[..Clip(limit, |body.Contents()|)])
      case Some(o) => o
      case None => Success
  }

  /** An After hook: the start of a successful body may change the outcome. There is no response to look at
      if the send has failed. `judge` is the caller's classification. */
  method RetryOnBody(resp: Response?, outcome: Outcome, limit: int, judge: (int, seq<Byte>) -> Option<Outcome>)
    returns (r: Outcome)
    modifies resp
    ensures resp == null || outcome != Success ==> r == outcome
    ensures resp != null && outcome != Success ==> unchanged(resp)
    ensures resp != null ==> resp.consumed == old(resp.consumed) && resp.closed == old(resp.closed)
    ensures resp != null ==>
      && resp.body.Contents() == old(resp.body.Contents()) && resp.Whole() == old(resp.Whole())
      && resp.body.Fails() == old(resp.body.Fails()) && resp.body.Source() == old(resp.body.Source())
    ensures resp != null && outcome == Success ==> r == Judged(old(resp.body), limit, resp.status, judge)
    ensures resp != null && outcome == Success ==>
      var body := old(resp.body.Contents());
      var judged := judge(resp.status, body[..Clip(limit, |body|)]);
      if old(resp.body.Fails()) && |body| < limit then r == Unknown
      else r == if judged.Some? then judged.value else Success
  {
    if resp == null || outcome != Success {
      return outcome;
    }
    var buf, failed := resp.PeekBody(limit);
    if failed {
      return Unknown;
    }
    match judge(resp.status, buf)
    case Some(o) => return o;
    case None => return outcome;
  }

  /** What a user of a response may do to its body before it reaches the caller. */
  datatype Use = Peek(limit: int) | Partial(asked: nat) | Judge(limit: int, outcome: Outcome)

  /** What a use found: where in the body it began, the bytes that it gave and the outcome that it left. */
  datatype Finding = Finding(pos: nat, bytes: seq<Byte>, outcome: Outcome)

  /** A use that begins after `pos` bytes have been read finds what the original body says there. */
  predicate Finds(original: Body, status: int, judge: (int, seq<Byte>) -> Option<Outcome>, use: Use, found: Finding) {
    var rest := original.Contents();
    && found.pos <= |rest|
    && var ahead := rest[found.pos..];
    match use
    case Peek(limit) => found.bytes == ahead[..Clip(limit, |ahead|)]
    case Partial(asked) =>
      && |found.bytes| <= asked && found.bytes <= ahead
      && (found.bytes == [] <==> asked == 0 || ahead == [])
    case Judge(limit, before) =>
      && found.bytes == []
      && found.outcome ==
           if before != Success then before
           else Judged(Wire(ahead, original.Fails(), original.Source()), limit, status, judge)
  }

  /** Every use finds what the original body says at its place, which is where the reads before it have
      ended: peeks and judgements move nothing. `pos` is the place after the last use. */
  predicate Accounts(original: Body, status: int, judge: (int, seq<Byte>) -> Option<Outcome>,
                     uses: seq<Use>, found: seq<Finding>, pos: nat)
  {
    if |uses| == 0 || |found| == 0 then |uses| == |found| == pos == 0
    else
      var use, f := uses[|uses| - 1], found[|found| - 1];
      && Finds(original, status, judge, use, f)
      && pos == f.pos + (if use.Partial? then |f.bytes| else 0)
      && Accounts(original, status, judge, uses[..|uses| - 1], found[..|found| - 1], f.pos)
  }

  lemma OneMoreUse(original: Body, status: int, judge: (int, seq<Byte>) -> Option<Outcome>,
                   uses: seq<Use>, found: seq<Finding>, use: Use, f: Finding)
    requires Accounts(original, status, judge, uses, found, f.pos) && Finds(original, status, judge, use, f)
    ensures Accounts(original, status, judge, uses + [use], found + [f], f.pos + if use.Partial? then |f.bytes| else 0)
  {
    assert (uses + [use])[..|uses|] == uses && (found + [f])[..|found|] == found;
  }

  /** The account has an entry for every use, which found what it should; without reads all of them are at
      the beginning. */
  lemma {:induction false} EachUseIsAccountedFor(original: Body, status: int,
                                                 judge: (int, seq<Byte>) -> Option<Outcome>,
                                                 uses: seq<Use>, found: seq<Finding>, pos: nat)
    requires Accounts(original, status, judge, uses, found, pos)
    ensures |found| == |uses|
    ensures forall i :: 0 <= i < |uses| ==> Finds(original, status, judge, uses[i], found[i])
    ensures (forall u :: u in uses ==> !u.Partial?) ==> pos == 0
  {
    if uses != [] && found != [] {
      var before := uses[..|uses| - 1];
      EachUseIsAccountedFor(original, status, judge, before, found[..|found| - 1], found[|found| - 1].pos);
      assert uses[|uses| - 1] in uses && forall u :: u in before ==> u in uses;
    }
  }

  /** A judgement depends on what a body gives, not on how it is put together. */
  lemma SameJudgement(a: Body, b: Body, limit: int, status: int, judge: (int, seq<Byte>) -> Option<Outcome>)
    requires a.Contents() == b.Contents() && a.Fails() == b.Fails()
    ensures Judged(a, limit, status, judge) == Judged(b, limit, status, judge)
  {
  }

  /** One use of a response of which `pos` bytes have been read. */
  method UseOnce(resp: Response, use: Use, judge: (int, seq<Byte>) -> Option<Outcome>,
                 read: seq<Byte>, ghost original: Body)
    returns (found: Finding)
    requires resp.consumed == read && resp.Whole() == original.Contents()
    requires resp.body.Fails() == original.Fails() && resp.body.Source() == original.Source()
    modifies resp
    ensures resp.closed == old(resp.closed)
    ensures found.pos == |old(resp.consumed)| && Finds(original, resp.status, judge, use, found)
    ensures resp.consumed == old(resp.consumed) + if use.Partial? then found.bytes else []
    ensures resp.Whole() == original.Contents()
    ensures resp.body.Fails() == original.Fails() && resp.body.Source() == original.Source()
  {
    ghost var ahead := original.Contents()[|resp.consumed|..];
    assert ahead == resp.body.Contents();
    match use
    case Peek(limit) =>
      var buf, failed := resp.PeekBody(limit);
      return Finding(|read|, buf, Success);
    case Partial(asked) =>
      var chunk := [];
      if asked >= 1 {
        chunk := resp.Read(asked);
      }
      return Finding(|read|, chunk, Success);
    case Judge(limit, before) =>
      SameJudgement(resp.body, Wire(ahead, original.Fails(), original.Source()), limit, resp.status, judge);
      var o := RetryOnBody(resp, before, limit, judge);
      return Finding(|read|, [], o);
  }

  /** What a response and the account of its uses so far have to do with the original body. */
  ghost predicate Tracks(resp: Response, original: Body, read: seq<Byte>)
    reads resp
  {
    && resp.consumed == read && resp.Whole() == original.Contents()
    && resp.body.Fails() == original.Fails() && resp.body.Source() == original.Source() && resp.closed == {}
  }

  /** One more use, and its entry in the account. */
  method UseNext(resp: Response, judge: (int, seq<Byte>) -> Option<Outcome>, ghost original: Body,
                 ghost past: seq<Use>, found: seq<Finding>, read: seq<Byte>, use: Use)
    returns (found': seq<Finding>, read': seq<Byte>)
    requires Tracks(resp, original, read) && Accounts(original, resp.status, judge, past, found, |read|)
    modifies resp
    ensures Tracks(resp, original, read') && |found'| == |found| + 1
    ensures Accounts(original, resp.status, judge, past + [use], found', |read'|)
  {
    var f := UseOnce(resp, use, judge, read, original);
    OneMoreUse(original, resp.status, judge, past, found, use, f);
    found' := found + [f];
    read' := if use.Partial? then read + f.bytes else read;
  }

  /** MAIN RESULT. After any sequence of peeks and judgements with any limits, interleaved with partial
      reads: there is one finding for each use, every peek shows and every judgement sees what comes next at
      its place in the original body, what was read and what is left together are the original bytes, and
      closing closes the original connection. */
  method UseBody(original: Body, status: int, uses: seq<Use>, judge: (int, seq<Byte>) -> Option<Outcome>)
    returns (read: seq<Byte>, left: Body, found: seq<Finding>, closed: set<int>)
    ensures read + left.Contents() == original.Contents() && left.Fails() == original.Fails()
    ensures |found| == |uses| && Accounts(original, status, judge, uses, found, |read|)
    ensures (forall u :: u in uses ==> !u.Partial?) ==> left.Contents() == original.Contents()
    ensures closed == {original.Source()}
  {
    var resp := new Response(original, status);
    read, found := [], [];
    for i := 0 to |uses|
      invariant fresh(resp) && resp.status == status && |found| == i
      invariant Tracks(resp, original, read) && Accounts(original, status, judge, uses[..i], found, |read|)
    {
      found, read := UseNext(resp, judge, original, uses[..i], found, read, uses[i]);
      assert uses[..i + 1] == uses[..i] + [uses[i]];
    }
    assert uses[..|uses|] == uses;
    EachUseIsAccountedFor(original, status, judge, uses, found, |read|);
    resp.Close();
    left, closed := resp.body, resp.closed;
  }
}
