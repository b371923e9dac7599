/** The built-in hooks: the idempotency key, the reconciler and the failover of hosts. */
module Hooks {
  import opened Base

  datatype KeyScope = PerCall | PerAttempt

  /** A header that is missing reads as the empty string. */
  function Get(headers: map<string, string>, name: string): string {
    if name in headers then headers[name] else ""
  }

  /** The key for attempt `n`: the stored one, else the caller's own on the first attempt, else a new one. */
  function ChooseKey(scope: KeyScope, stored: Option<string>, n: nat, present: string, generated: string): string {
    if scope.PerCall? && stored.Some? then stored.value
    else if n == 1 && present != "" then present
    else generated
  }

  /** What a probe of the downstream found out. */
  datatype Answer = Found(resp: Response) | NotFound | Inconclusive(err: int)

  function Reconciler(answer: Answer, failOpen: bool): Verdict {
    match answer
    case Found(resp) => Succeed(Some(resp))
    case NotFound => Continue
    case Inconclusive(e) => if failOpen then Continue else Fail(e)
  }

  /** A probe that reports what is there: it may be inconclusive, but it does not err. */
  predicate TruthfulProbe(answer: Answer, effects: nat) {
    (answer.Found? ==> effects > 0) && (answer.NotFound? ==> effects == 0)
  }

  /** The request objects of the program: a clone shares nothing with its original. */
  class Header {
    var fields: map<string, string>

    constructor (fields: map<string, string>)
      ensures this.fields == fields
    {
      this.fields := fields;
    }
  }

  class HttpRequest {
    var verb: string
    var host: string
    const header: Header

    constructor (verb: string, host: string, header: Header)
      ensures this.verb == verb && this.host == host && this.header == header
    {
      this.verb, this.host, this.header := verb, host, header;
    }

    function Value(): Request
      reads this, header
    {
      Request(verb, host, header.fields)
    }

    method Clone() returns (r: HttpRequest)
      ensures fresh(r) && fresh(r.header) && r.Value() == Value()
    {
      var h := new Header(header.fields);
      r := new HttpRequest(verb, host, h);
    }
  }

  /** The part of a call and of an attempt that the Before hooks read and write. */
  class CallState {
    var idempotent: bool
    var key: Option<string>

    constructor ()
      ensures !idempotent && key == None
    {
      idempotent, key := false, None;
    }
  }

  class Try {
    const call: CallState
    const n: nat
    const req: HttpRequest

    constructor (call: CallState, n: nat, req: HttpRequest)
      ensures this.call == call && this.n == n && this.req == req
    {
      this.call, this.n, this.req := call, n, req;
    }
  }

  /** Sets the key header on every attempt; a key per call also makes the call replay-safe. `generated`
      is what the generator would give. */
  method IdempotencyKey(a: Try, name: string, scope: KeyScope, generated: string)
    modifies a.call, a.req.header
    ensures var key := ChooseKey(scope, old(a.call.key), a.n, Get(old(a.req.header.fields), name), generated);
            a.call.key == Some(key) && a.req.header.fields == old(a.req.header.fields)[name := key]
    ensures a.call.idempotent == (old(a.call.idempotent) || scope.PerCall?)
    // A stored key is used again for the call only; the caller's own is for the first attempt.
    ensures scope.PerCall? && old(a.call.key).Some? ==> a.call.key == old(a.call.key)
    ensures scope.PerAttempt? || old(a.call.key).None? ==>
      var own := Get(old(a.req.header.fields), name);
      a.call.key == Some(if a.n == 1 && own != "" then own else generated)
  {
    var key;
    if scope.PerCall? && a.call.key.Some? {
      key := a.call.key.value;
    } else if a.n == 1 && Get(a.req.header.fields, name) != "" {
      key := Get(a.req.header.fields, name);
    } else {
      key := generated;
    }
    a.call.key := Some(key);
    a.req.header.fields := a.req.header.fields[name := key];
    if scope.PerCall? {
      a.call.idempotent := true;
    }
  }

  /** Attempt n goes to host (n-1) modulo the number of hosts. */
  method FailoverHosts(a: Try, hosts: seq<string>)
    requires a.n >= 1
    modifies a.req
    ensures a.req.host == if hosts == [] then old(a.req.host) else hosts[(a.n - 1) % |hosts|]
    ensures a.req.verb == old(a.req.verb)
  {
    if |hosts| > 0 {
      a.req.host := hosts[(a.n - 1) % |hosts|];
    }
  }

  /** MAIN RESULT. However many attempts a call makes with a key per call and a list of hosts: every one
      carries one and the same key (the caller's own if there was one), goes to its place in the rotation
      of the hosts, finds the call marked replay-safe, and the caller's request is as it was. */
  method SendMany(original: HttpRequest, name: string, hosts: seq<string>, attempts: nat)
    returns (sent: seq<Request>, replaySafe: bool)
    ensures |sent| == attempts && replaySafe == (attempts > 0)
    ensures original.Value() == old(original.Value())
    ensures forall i :: 0 <= i < attempts ==> name in sent[i].headers
    ensures forall i :: 0 <= i < attempts ==> sent[i].headers[name] == sent[0].headers[name]
    ensures attempts > 0 && Get(original.header.fields, name) != "" ==>
      sent[0].headers[name] == Get(original.header.fields, name)
    ensures forall i :: 0 <= i < attempts ==>
      sent[i] == Request(original.verb, if hosts == [] then original.host else hosts[i % |hosts|],
                         original.header.fields[name := sent[0].headers[name]])
  {
    sent := [];
    var call := new CallState();
    var n := 1;
    while n <= attempts
      invariant 1 <= n <= attempts + 1 && |sent| == n - 1
      invariant fresh(call) && original.Value() == old(original.Value())
      invariant if n == 1 then call.key == None && !call.idempotent
                else
                  && call.key.Some? && call.idempotent
                  && name in sent[0].headers && sent[0].headers[name] == call.key.value
      invariant n > 1 && Get(original.header.fields, name) != "" ==> call.key == Some(Get(original.header.fields, name))
      invariant forall i :: 0 <= i < n - 1 ==>
        sent[i] == Request(original.verb, if hosts == [] then original.host else hosts[i % |hosts|],
                           original.header.fields[name := call.key.value])
    {
      var req := original.Clone();
      var a := new Try(call, n, req);
      var generated: string := *;
      IdempotencyKey(a, name, PerCall, generated);
      FailoverHosts(a, hosts);
      sent := sent + [req.Value()];
      n := n + 1;
    }
    replaySafe := call.idempotent;
  }
}
