/** The retrying round trip (internal/client/transport.go).

  One exchange sends a request, waits and resends while the outcome is an error or
  a status of 500 and up, and gives back either one response or one error.  The
  inner transport, the timers and the request's context are adversaries: which
  outcome each attempt has, how much of the request body it reads, and which arm
  each `select` takes are all arbitrary. */
module Transport {
  import opened Models

  // ------------------------------------------------------------ the exchange

  /** The head of a response: what decides how it is classified. */
  datatype Head = Head(status: int, hasBody: bool, location: Option<string>)

  /** What one attempt gives back; both parts at once is possible. */
  datatype Outcome = Outcome(head: Option<Head>, err: Option<string>)

  datatype ExchangeError =
    | Aborted
    | Unsent(cause: string)
    | ServerError(code: int)
    | ClientError(code: int)
    | Redirected(code: int, location: Option<string>)

  /** The contract of http.RoundTripper: no error means a response. */
  ghost predicate Honest(script: nat -> Outcome) {
    forall k :: script(k).err.None? ==> script(k).head.Some?
  }

  /** The contract's other half, which the code relies on for its last attempt. */
  predicate Disjoint(o: Outcome) {
    o.err.Some? ==> o.head.None?
  }

  predicate Retryable(o: Outcome) {
    o.err.Some? || (o.head.Some? && o.head.value.status >= 500)
  }

  datatype Ending = Returned | Failed(error: ExchangeError)

  /** How an exchange ends: after how many attempts and timers, and with what. */
  datatype Course = Course(attempts: nat, timers: nat, ending: Ending)

  function Classify(head: Head): Ending {
    if 400 <= head.status <= 499 then Failed(ClientError(head.status))
    else if 300 <= head.status <= 399 then Failed(Redirected(head.status, head.location))
    else Returned
  }

  /** The exchange from attempt `k` on. */
  function Run(script: nat -> Outcome, retries: nat, cancelled: nat -> bool, k: nat): (c: Course)
    requires k <= retries
    ensures k < c.attempts <= retries + 1 && c.timers <= retries
    decreases retries - k
  {
    var o := script(k);
    if !Retryable(o) then Course(k + 1, k, if o.head.Some? then Classify(o.head.value) else Returned)
    else if k == retries then
      Course(k + 1, k, Failed(if o.err.Some? then Unsent(o.err.value) else ServerError(o.head.value.status)))
    else if cancelled(k) then Course(k + 1, k + 1, Failed(Aborted))
    else Run(script, retries, cancelled, k + 1)
  }

  function Exchange(script: nat -> Outcome, retries: nat, cancelled: nat -> bool): (c: Course)
    ensures 1 <= c.attempts <= retries + 1 && c.timers <= retries
  {
    Run(script, retries, cancelled, 0)
  }

  /** Attempts `from` to `upto - 1` were all worth retrying and no wait was cut short. */
  ghost predicate Pressed(script: nat -> Outcome, cancelled: nat -> bool, from: nat, upto: nat) {
    forall i :: from <= i < upto ==> Retryable(script(i)) && !cancelled(i)
  }

  lemma {:induction false} Stops(script: nat -> Outcome, retries: nat, cancelled: nat -> bool, k: nat) returns (last: nat)
    requires k <= retries && Honest(script)
    ensures k <= last <= retries && Pressed(script, cancelled, k, last)
    ensures Run(script, retries, cancelled, k) == Run(script, retries, cancelled, last)
    ensures !Retryable(script(last)) || last == retries || cancelled(last)
    decreases retries - k
  {
    if !Retryable(script(k)) || k == retries || cancelled(k) {
      last := k;
    } else {
      last := Stops(script, retries, cancelled, k + 1);
    }
  }

  /** Only one attempt can be the last. */
  lemma SameStop(script: nat -> Outcome, retries: nat, cancelled: nat -> bool, a: nat, b: nat)
    requires a <= retries && b <= retries
    requires Pressed(script, cancelled, 0, a) && (!Retryable(script(a)) || a == retries || cancelled(a))
    requires Pressed(script, cancelled, 0, b) && (!Retryable(script(b)) || b == retries || cancelled(b))
    ensures a == b
  {}

  /** The exchange returns a response exactly when the first attempt that is neither
      an error nor a 5xx, among the first 1 + retries, is below 300 (an informational
      status included) and no wait before it was cut short. */
  lemma ReturnedIff(script: nat -> Outcome, retries: nat, cancelled: nat -> bool)
    requires Honest(script)
    ensures var c := Exchange(script, retries, cancelled);
            c.ending == Returned <==>
            exists j :: 0 <= j <= retries && Pressed(script, cancelled, 0, j) && !Retryable(script(j))
              && script(j).head.value.status < 300
  {
    var last := Stops(script, retries, cancelled, 0);
    forall j | 0 <= j <= retries && Pressed(script, cancelled, 0, j) && !Retryable(script(j)) ensures j == last {
      SameStop(script, retries, cancelled, j, last);
    }
  }

  /** A client error or a redirect is reported exactly when it is the first good
      outcome, however many failures came before it. */
  lemma RejectedIff(script: nat -> Outcome, retries: nat, cancelled: nat -> bool, e: ExchangeError)
    requires Honest(script) && (e.ClientError? || e.Redirected?)
    ensures Exchange(script, retries, cancelled).ending == Failed(e) <==>
            exists j :: 0 <= j <= retries && Pressed(script, cancelled, 0, j) && !Retryable(script(j))
              && Rejects(script(j).head.value, e)
  {
    var last := Stops(script, retries, cancelled, 0);
    forall j | 0 <= j <= retries && Pressed(script, cancelled, 0, j) && !Retryable(script(j)) ensures j == last {
      SameStop(script, retries, cancelled, j, last);
    }
  }

  predicate Rejects(head: Head, e: ExchangeError)
    requires e.ClientError? || e.Redirected?
  {
    && head.status == e.code
    && if e.ClientError? then 400 <= head.status <= 499 else 300 <= head.status <= 399 && head.location == e.location
  }

  /** The exchange gives up exactly when every attempt failed and every wait ran
      out, and then reports how the last attempt failed. */
  lemma ExhaustedIff(script: nat -> Outcome, retries: nat, cancelled: nat -> bool)
    requires Honest(script)
    ensures var c := Exchange(script, retries, cancelled);
            && (c.ending.Failed? && (c.ending.error.Unsent? || c.ending.error.ServerError?) <==>
                Pressed(script, cancelled, 0, retries) && Retryable(script(retries)))
            && (c.ending.Failed? && c.ending.error.Unsent? ==> script(retries).err == Some(c.ending.error.cause))
            && (c.ending.Failed? && c.ending.error.ServerError? ==>
                  script(retries).err == None && script(retries).head.value.status == c.ending.error.code >= 500)
  {
    var last := Stops(script, retries, cancelled, 0);
    if Pressed(script, cancelled, 0, retries) {
      SameStop(script, retries, cancelled, retries, last);
    }
  }

  /** An exchange is aborted at wait `j` exactly when attempts 0 to `j` failed and
      that wait was the first to be cut short; it has then made exactly `j + 1`
      attempts and started as many timers.  Otherwise each attempt but the first
      came after one timer. */
  lemma AbortedIff(script: nat -> Outcome, retries: nat, cancelled: nat -> bool)
    requires Honest(script)
    ensures var c := Exchange(script, retries, cancelled);
            && (c.ending == Failed(Aborted) <==>
                exists j :: 0 <= j < retries && Pressed(script, cancelled, 0, j) && Retryable(script(j)) && cancelled(j))
            && (c.ending == Failed(Aborted) ==>
                  var j := c.attempts - 1;
                  j < retries && Pressed(script, cancelled, 0, j) && Retryable(script(j)) && cancelled(j) && c.timers == j + 1)
            && (c.ending != Failed(Aborted) ==> c.timers == c.attempts - 1)
            && Pressed(script, cancelled, 0, c.attempts - 1)
  {
    var last := Stops(script, retries, cancelled, 0);
    forall j | 0 <= j < retries && Pressed(script, cancelled, 0, j) && Retryable(script(j)) && cancelled(j) ensures j == last {
      SameStop(script, retries, cancelled, j, last);
    }
  }

  // --------------------------------------------------------------- ownership

  /** How often the body of attempt `k`'s response is closed when the exchange is
      over: never if it was handed to the caller, or if it came with an error and
      nothing was tried after it. */
  function Closes(c: Course, k: nat): nat {
    if k + 1 < c.attempts then 1
    else if c.ending == Returned || c.ending.error.Unsent? then 0
    else 1
  }

  predicate HasBody(o: Outcome) {
    o.head.Some? && o.head.value.hasBody
  }

  /** Nothing is leaked: every response body is closed once, but for the one
      response that is returned, which is still open. */
  ghost predicate Settled(script: nat -> Outcome, c: Course) {
    forall k: nat :: k < c.attempts && HasBody(script(k)) ==>
      Closes(c, k) == if c.ending == Returned && k == c.attempts - 1 then 0 else 1
  }

  /** Nothing is leaked if and only if the last attempt of an exchange that gave up
      did not bring a response along with its error. */
  lemma SettledIff(script: nat -> Outcome, retries: nat, cancelled: nat -> bool)
    requires Honest(script)
    ensures Settled(script, Exchange(script, retries, cancelled)) <==>
            !(Pressed(script, cancelled, 0, retries) && script(retries).err.Some? && HasBody(script(retries)))
  {
    var c := Exchange(script, retries, cancelled);
    ExhaustedIff(script, retries, cancelled);
    AbortedIff(script, retries, cancelled);
    var last := Stops(script, retries, cancelled, 0);
    if Pressed(script, cancelled, 0, retries) && script(retries).err.Some? && HasBody(script(retries)) {
      SameStop(script, retries, cancelled, retries, last);
      assert Closes(c, c.attempts - 1) == 0;
    }
  }

  /** An inner transport that breaks the rule: a 502 along with an error, and no
      retries left.  Its body is never closed. */
  lemma LeakingAttempt(cancelled: nat -> bool)
    ensures var script := (k: nat) => Outcome(Some(Head(502, true, None)), Some("broken pipe"));
            Honest(script) && !Settled(script, Exchange(script, 0, cancelled))
  {
    var script := (k: nat) => Outcome(Some(Head(502, true, None)), Some("broken pipe"));
    SettledIff(script, 0, cancelled);
  }

  /** An inner transport that never gives a response with an error leaks nothing,
      on any path, a wait cut short included. */
  lemma DisjointSettles(script: nat -> Outcome, retries: nat, cancelled: nat -> bool)
    requires Honest(script) && Disjoint(script(retries))
    ensures Settled(script, Exchange(script, retries, cancelled))
  {
    SettledIff(script, retries, cancelled);
  }

  // -------------------------------------------------------------- the objects

  type Bytes = seq<bv8>

  /** A response with its body: whether the body has been read to its end, and how
      often it has been closed. */
  class Response {
    const head: Head
    var drained: bool
    var closes: nat

    constructor (head: Head)
      ensures this.head == head && !drained && closes == 0
    {
      this.head := head;
      drained, closes := false, 0;
    }
  }

  /** A request; `body` is what can still be read from it. */
  class Request {
    var body: Option<Bytes>

    constructor (body: Option<Bytes>)
      ensures this.body == body
    {
      this.body := body;
    }
  }

  predicate Carries(r: Response?, head: Option<Head>) {
    if r == null then head.None? else head == Some(r.head)
  }

  /** A response that was thrown away has its body read and closed once. */
  ghost predicate Discarded(r: Response?)
    reads r
  {
    r != null && r.head.hasBody ==> r.drained && r.closes == 1
  }

  /** The wrapped transport.  `issued` and `offered` are a ledger of the responses it
      gave out and of the request bodies it was given. */
  class Inner {
    const script: nat -> Outcome
    const takes: nat -> nat
    var calls: nat
    ghost var issued: seq<Response?>
    ghost var offered: seq<Option<Bytes>>

    ghost predicate Valid()
      reads this
    {
      calls == |issued| == |offered|
    }

    constructor (script: nat -> Outcome, takes: nat -> nat)
      ensures Valid() && calls == 0 && this.script == script
    {
      this.script, this.takes := script, takes;
      calls, issued, offered := 0, [], [];
    }

    /** Reads as much of the body as it likes. */
    method RoundTrip(req: Request) returns (resp: Response?, err: Option<string>)
      requires Valid()
      modifies this, req
      ensures Valid() && calls == old(calls) + 1
      ensures issued == old(issued) + [resp] && offered == old(offered) + [old(req.body)]
      ensures err == script(old(calls)).err && Carries(resp, script(old(calls)).head)
      ensures resp != null ==> fresh(resp) && resp.closes == 0 && !resp.drained
      ensures req.body.Some? <==> old(req.body.Some?)
    {
      var o := script(calls);
      resp, err := null, o.err;
      if o.head.Some? {
        resp := new Response(o.head.value);
      }
      issued, offered := issued + [resp], offered + [req.body];
      if req.body.Some? && takes(calls) <= |req.body.value| {
        req.body := Some(req.body.value[takes(calls)..]);
      }
      calls := calls + 1;
    }
  }

  /** Reads a response's body to its end and closes it, if there is one. */
  method DrainClose(resp: Response?)
    modifies resp
    ensures resp != null && resp.head.hasBody ==> resp.drained && resp.closes == old(resp.closes) + 1
    ensures resp != null && !resp.head.hasBody ==> resp.drained == old(resp.drained) && resp.closes == old(resp.closes)
  {
    if resp == null || !resp.head.hasBody {
      return;
    }
    resp.drained := true;
    resp.closes := resp.closes + 1;
  }

  // -------------------------------------------------------------- round trips

  /** A script as an exchange sees it that starts at call `base`. */
  function From(script: nat -> Outcome, base: nat): nat -> Outcome {
    (k: nat) => script(base + k)
  }

  class ClientTransport {
    const inner: Inner
    const backoff: seq<nat>
    /** The durations the timer function was asked for. */
    var timers: seq<nat>

    constructor (inner: Inner, backoff: seq<nat>)
      ensures this.inner == inner && this.backoff == backoff && timers == []
    {
      this.inner, this.backoff, timers := inner, backoff, [];
    }

    /** The attempts of the exchange that began at call `base`: each was given the
        same body, and its response is the one the script has for it. */
    ghost predicate Made(base: nat, n: nat, body: Option<Bytes>)
      reads inner, inner.issued
    {
      && inner.Valid() && inner.calls == base + n
      && forall k :: base <= k < base + n ==> inner.offered[k] == body && Carries(inner.issued[k], inner.script(k).head)
    }

    ghost predicate AllDiscarded(base: nat, n: nat)
      reads inner, inner.issued
      requires base + n <= |inner.issued|
    {
      forall k :: base <= k < base + n ==> Discarded(inner.issued[k])
    }

    /** Attempt `last` is the latest; all responses before its own have been discarded. */
    ghost predicate Sent(base: nat, last: nat, body: Option<Bytes>, resp: Response?)
      reads inner, inner.issued
    {
      && Made(base, last + 1, body) && AllDiscarded(base, last)
      && inner.issued[base + last] == resp
      && (resp != null ==> resp.closes == 0 && forall k :: base <= k < base + last ==> inner.issued[k] != resp)
    }

    /** The exchange is over: every response has been closed as often as it should. */
    ghost predicate Ledger(base: nat, c: Course, body: Option<Bytes>)
      reads inner, inner.issued
    {
      && Made(base, c.attempts, body)
      && forall k :: base <= k < base + c.attempts && inner.issued[k] != null && inner.issued[k].head.hasBody ==>
           && inner.issued[k].closes == Closes(c, k - base)
           && (inner.issued[k].closes == 1 ==> inner.issued[k].drained)
    }

    /** Discarding the latest response leaves none open. */
    method Discard(resp: Response?, ghost base: nat, ghost last: nat, ghost body: Option<Bytes>)
      requires Sent(base, last, body, resp)
      modifies resp
      ensures Made(base, last + 1, body) && AllDiscarded(base, last + 1)
    {
      DrainClose(resp);
      forall k | base <= k < base + last + 1 ensures Discarded(inner.issued[k]) {
        if k < base + last { assert old(Discarded(inner.issued[k])); }
      }
    }

    /** One more attempt, made when all earlier responses have been discarded. */
    method Attempt(req: Request, ghost base: nat, ghost n: nat) returns (resp: Response?, cause: Option<string>)
      requires Made(base, n, req.body) && AllDiscarded(base, n) && Honest(inner.script)
      modifies inner, req
      ensures Sent(base, n, old(req.body), resp) && (resp != null ==> fresh(resp))
      ensures Latest(base, n, resp, cause)
      ensures req.body.Some? <==> old(req.body.Some?)
    {
      resp, cause := inner.RoundTrip(req);
      forall k | base <= k < base + n
        ensures Discarded(inner.issued[k]) && inner.issued[k] == old(inner.issued[k])
      {
        assert old(Discarded(inner.issued[k]));
      }
    }

    lemma LedgerOfDiscarded(base: nat, c: Course, body: Option<Bytes>)
      requires Made(base, c.attempts, body) && AllDiscarded(base, c.attempts)
      requires c.ending.Failed? && !c.ending.error.Unsent?
      ensures Ledger(base, c, body)
    {
      forall k | base <= k < base + c.attempts ensures Discarded(inner.issued[k]) {}
    }

    lemma LedgerOfOpen(base: nat, last: nat, c: Course, body: Option<Bytes>, resp: Response?)
      requires c.attempts == last + 1 && Sent(base, last, body, resp)
      requires c.ending == Returned || c.ending.error.Unsent?
      ensures Ledger(base, c, body)
    {
      forall k | base <= k < base + last ensures Discarded(inner.issued[k]) {}
    }

    lemma OneMoreTimer(before: seq<nat>, i: nat)
      requires i < |backoff|
      ensures before + backoff[..i] + [backoff[i]] == before + backoff[..i + 1]
    {}

    /** What the code knows about attempt `k` of the exchange: its outcome, and whether
        it is worth retrying. */
    ghost predicate Latest(base: nat, k: nat, resp: Response?, cause: Option<string>)
      reads inner
    {
      var o := inner.script(base + k);
      && cause == o.err && Carries(resp, o.head) && (cause.None? ==> resp != null)
      && (Retryable(o) <==> cause.Some? || resp.head.status >= 500)
    }

    /** One turn of the loop, as the exchange sees it. */
    lemma OneMoreTurn(base: nat, cancelled: nat -> bool, i: nat, resp: Response?, cause: Option<string>)
      requires i < |backoff| && Latest(base, i, resp, cause)
      requires cause.Some? || resp.head.status >= 500
      ensures Rest(base, cancelled, i)
              == if cancelled(i) then Course(i + 1, i + 1, Failed(Aborted)) else Rest(base, cancelled, i + 1)
    {}

    lemma StopsHere(base: nat, cancelled: nat -> bool, i: nat, resp: Response?, cause: Option<string>)
      requires i <= |backoff| && Latest(base, i, resp, cause)
      requires cause.Some? || resp.head.status >= 500 ==> i == |backoff|
      ensures Rest(base, cancelled, i)
              == if cause.None? && resp.head.status < 500 then Course(i + 1, i, Classify(resp.head))
                 else Course(i + 1, i, Failed(if cause.Some? then Unsent(cause.value) else ServerError(resp.head.status)))
    {}

    /** What a finished exchange gives its caller. */
    ghost predicate Finished(base: nat, c: Course, body: Option<Bytes>, resp: Response?, err: Option<ExchangeError>)
      reads inner, inner.issued
    {
      && Ledger(base, c, body)
      && err == (if c.ending.Failed? then Some(c.ending.error) else None)
      && (c.attempts >= 1 ==> resp == (if c.ending.Failed? then null else inner.issued[base + c.attempts - 1]))
    }

    /** The exchange as it goes on from attempt `k`, on this transport's schedule; from
        attempt 0 it is the whole exchange. */
    ghost function Rest(base: nat, cancelled: nat -> bool, k: nat): (c: Course)
      requires k <= |backoff|
      ensures k < c.attempts <= |backoff| + 1 && c.timers <= |backoff|
    {
      Run(From(inner.script, base), |backoff|, cancelled, k)
    }

    /** With an inner transport that gives no response along with an error on the last
        attempt, a finished exchange has closed every response body exactly once, but
        for the one it returned, which is open. */
    lemma NothingLeaks(base: nat, cancelled: nat -> bool, body: Option<Bytes>)
      requires Honest(inner.script) && Disjoint(inner.script(base + |backoff|))
      requires Ledger(base, Rest(base, cancelled, 0), body)
      ensures var c := Rest(base, cancelled, 0);
              forall k :: base <= k < base + c.attempts && inner.issued[k] != null && inner.issued[k].head.hasBody ==>
                inner.issued[k].closes == if c.ending == Returned && k == base + c.attempts - 1 then 0 else 1
    {
      var script := From(inner.script, base);
      DisjointSettles(script, |backoff|, cancelled);
      var c := Rest(base, cancelled, 0);
      forall k | base <= k < base + c.attempts && inner.issued[k] != null && inner.issued[k].head.hasBody
        ensures inner.issued[k].closes == if c.ending == Returned && k == base + c.attempts - 1 then 0 else 1
      {
        assert Carries(inner.issued[k], script(k - base).head);
        assert HasBody(script(k - base));
      }
    }

    /** Classifies a response that is not worth retrying: the last part of RoundTrip. */
    method Judge(resp: Response, ghost base: nat, ghost last: nat, ghost body: Option<Bytes>)
      returns (r: Response?, err: Option<ExchangeError>)
      requires Sent(base, last, body, resp)
      modifies resp
      ensures Finished(base, Course(last + 1, last, Classify(resp.head)), body, r, err)
    {
      ghost var c := Course(last + 1, last, Classify(resp.head));
      if 400 <= resp.head.status <= 499 {
        Discard(resp, base, last, body);
        LedgerOfDiscarded(base, c, body);
        return null, Some(ClientError(resp.head.status));
      }
      if 300 <= resp.head.status <= 399 {
        var location := resp.head.location;
        Discard(resp, base, last, body);
        LedgerOfDiscarded(base, c, body);
        return null, Some(Redirected(resp.head.status, location));
      }
      LedgerOfOpen(base, last, c, body, resp);
      return resp, None;
    }

    /** What RoundTrip makes of its last attempt. */
    method Conclude(resp: Response?, cause: Option<string>, ghost cancelled: nat -> bool,
                    ghost base: nat, ghost last: nat, ghost body: Option<Bytes>)
      returns (r: Response?, err: Option<ExchangeError>)
      requires last <= |backoff| && Sent(base, last, body, resp) && Latest(base, last, resp, cause)
      requires last < |backoff| ==> cause.None? && resp.head.status < 500
      modifies resp
      ensures Finished(base, Rest(base, cancelled, last), body, r, err) && Rest(base, cancelled, last).timers == last
    {
      StopsHere(base, cancelled, last, resp, cause);
      if cause.Some? {
        LedgerOfOpen(base, last, Rest(base, cancelled, last), body, resp);
        return null, Some(Unsent(cause.value));
      }
      if resp.head.status >= 500 {
        Discard(resp, base, last, body);
        LedgerOfDiscarded(base, Rest(base, cancelled, last), body);
        return null, Some(ServerError(resp.head.status));
      }
      r, err := Judge(resp, base, last, body);
    }

    /** One turn of the retry loop: discard, wait, and unless the wait is cut short
        put the body back and send again. */
    method Turn(req: Request, bodyBytes: Bytes, i: nat, cutShort: bool, resp: Response?,
                ghost base: nat, ghost body: Option<Bytes>)
      returns (next: Response?, cause: Option<string>)
      requires i < |backoff| && Honest(inner.script) && Sent(base, i, body, resp)
      requires (body.Some? ==> body.value == bodyBytes) && (req.body.Some? <==> body.Some?)
      modifies this`timers, inner, req, resp
      ensures timers == old(timers) + [backoff[i]] && (req.body.Some? <==> body.Some?)
      ensures if cutShort then
                Made(base, i + 1, body) && AllDiscarded(base, i + 1)
              else
                Sent(base, i + 1, body, next) && (next != null ==> fresh(next)) && Latest(base, i + 1, next, cause)
    {
      Discard(resp, base, i, body);
      timers := timers + [backoff[i]];
      if cutShort {
        return null, None;
      }
      if req.body.Some? {
        req.body := Some(bodyBytes);
      }
      next, cause := Attempt(req, base, i + 1);
    }

    /** The retry loop of RoundTrip, up to the wait that was cut short or the attempt
        after which the exchange stops. */
    method Retry(req: Request, bodyBytes: Bytes, cancelled: nat -> bool, first: Response?, firstCause: Option<string>,
                 ghost base: nat, ghost body: Option<Bytes>)
      returns (aborted: bool, resp: Response?, cause: Option<string>, ghost last: nat)
      requires Honest(inner.script) && Sent(base, 0, body, first)
      requires Latest(base, 0, first, firstCause) && (firstCause.Some? || first.head.status >= 500)
      requires (body.Some? ==> body.value == bodyBytes) && (req.body.Some? <==> body.Some?)
      modifies this`timers, inner, req, first
      ensures last <= |backoff| && Rest(base, cancelled, 0) == Rest(base, cancelled, last)
      ensures if aborted then
                && last < |backoff| && Made(base, last + 1, body) && AllDiscarded(base, last + 1)
                && timers == old(timers) + backoff[..last + 1]
                && Rest(base, cancelled, last) == Course(last + 1, last + 1, Failed(Aborted))
              else
                && Sent(base, last, body, resp) && (resp != null ==> resp == first || fresh(resp))
                && Latest(base, last, resp, cause) && timers == old(timers) + backoff[..last]
                && (last < |backoff| ==> cause.None? && resp.head.status < 500)
    {
      aborted, resp, cause, last := false, first, firstCause, 0;
      for i := 0 to |backoff|
        invariant last == i && Sent(base, i, body, resp) && (resp != null ==> resp == first || fresh(resp))
        invariant Latest(base, i, resp, cause) && (cause.Some? || resp.head.status >= 500)
        invariant Rest(base, cancelled, 0) == Rest(base, cancelled, i)
        invariant timers == old(timers) + backoff[..i]
        invariant (req.body.Some? <==> body.Some?) && !aborted
      {
        OneMoreTimer(old(timers), i);
        OneMoreTurn(base, cancelled, i, resp, cause);
        resp, cause := Turn(req, bodyBytes, i, cancelled(i), resp, base, body);
        if cancelled(i) {
          aborted := true;
          return;
        }
        last := i + 1;
        if cause.None? && resp.head.status < 500 {
          return;
        }
      }
    }

    /** `cancelled(j)` says which arm the `select` of wait `j` takes. */
    method RoundTrip(req: Request, cancelled: nat -> bool) returns (resp: Response?, err: Option<ExchangeError>)
      requires inner.Valid() && Honest(inner.script)
      modifies this`timers, inner, req
      ensures var c := Rest(old(inner.calls), cancelled, 0);
              Finished(old(inner.calls), c, old(req.body), resp, err) && timers == old(timers) + backoff[..c.timers]
    {
      ghost var base := inner.calls;
      var bodyBytes: Bytes := [];
      if req.body.Some? {
        bodyBytes := req.body.value;
        req.body := Some(bodyBytes);
      }
      ghost var body := req.body;
      var cause: Option<string>;
      ghost var last := 0;
      resp, cause := Attempt(req, base, 0);
      if cause.Some? || resp.head.status >= 500 {
        var aborted;
        aborted, resp, cause, last := Retry(req, bodyBytes, cancelled, resp, cause, base, body);
        if aborted {
          LedgerOfDiscarded(base, Rest(base, cancelled, last), body);
          return null, Some(Aborted);
        }
      }
      resp, err := Conclude(resp, cause, cancelled, base, last, body);
    }
  }
}
