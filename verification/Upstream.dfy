/** One upstream HTTP call and how its result is classified before the failover loop sees it. */
module Upstream {
  import opened Wrappers
  import opened Rpc
  import opened Providers

  /** What the provider sent, if anything; None stands for a body that does not decode. */
  datatype Raw = NoResponse | Http(status: int, retryAfter: Option<int>, body: Option<BatchResponse>)

  datatype Failure = RateLimited(retryAfter: int) | NotImplemented | StatusError(code: int) | BadResponse | Transport

  datatype Reply = Failed(f: Failure) | Answered(res: BatchResponse)

  const OK: int := 200
  const PAYMENT_REQUIRED: int := 402
  const REQUEST_TOO_LARGE: int := 413
  const TOO_MANY_REQUESTS: int := 429
  const NOT_IMPLEMENTED: int := 501

  predicate Throttled(raw: Raw) {
    raw.Http? && (raw.status == TOO_MANY_REQUESTS || raw.status == PAYMENT_REQUIRED)
  }

  predicate HasError(res: BatchResponse) {
    exists i :: 0 <= i < |res.responses| && IsError(res.responses[i])
  }

  /** A usable JSON-RPC error in the body outranks the HTTP status, a rate limit outranks both. */
  function Classify(raw: Raw): Reply {
    if raw.NoResponse? then Failed(Transport)
    else if Throttled(raw) then Failed(RateLimited(RetryAfter(raw.retryAfter)))
    else if raw.status == OK then if raw.body.Some? then Answered(raw.body.value) else Failed(BadResponse)
    else if raw.body.Some? && HasError(raw.body.value) then Answered(raw.body.value)
    else if raw.status == NOT_IMPLEMENTED then Failed(NotImplemented)
    else Failed(StatusError(raw.status))
  }

  function AfterCall(p: ProviderState, raw: Raw, now: Time): ProviderState {
    if Throttled(raw) then TooManyRequests(p, raw.retryAfter, now) else p
  }

  method ResponseHasError(res: BatchResponse) returns (found: bool)
    ensures found == HasError(res)
  {
    var i := 0;
    while i < |res.responses|
      invariant 0 <= i <= |res.responses|
      invariant forall j :: 0 <= j < i ==> !IsError(res.responses[j])
    {
      if IsError(res.responses[i]) {
        return true;
      }
      i := i + 1;
    }
    return false;
  }

  method SendRpcBatchRequest(p: Provider, raw: Raw, now: Time) returns (reply: Reply)
    modifies p
    ensures reply == Classify(raw)
    ensures p.View() == AfterCall(old(p.View()), raw, now)
  {
    if raw.NoResponse? {
      return Failed(Transport);
    }
    if raw.status == TOO_MANY_REQUESTS || raw.status == PAYMENT_REQUIRED {
      var retryAfter := p.HandleTooManyRequests(raw.retryAfter, now);
      return Failed(RateLimited(retryAfter));
    }
    if raw.status != OK {
      if raw.body.Some? {
        var usable := ResponseHasError(raw.body.value);
        if usable {
          return Answered(raw.body.value);
        }
      }
      if raw.status == NOT_IMPLEMENTED {
        return Failed(NotImplemented);
      }
      return Failed(StatusError(raw.status));
    }
    if raw.body.None? {
      return Failed(BadResponse);
    }
    return Answered(raw.body.value);
  }

  /** A provider that wraps a JSON-RPC error in an HTTP failure is judged by the error alone:
      the same body under status 200 gives the same reply. */
  lemma BodyOutranksStatus(status: int, retryAfter: Option<int>, res: BatchResponse)
    ensures Classify(Http(status, retryAfter, Some(res))) == Classify(Http(OK, retryAfter, Some(res)))
      <==> status == OK || (HasError(res) && status != TOO_MANY_REQUESTS && status != PAYMENT_REQUIRED)
  {
  }

  /** The body carries an error response; a literal null is none. */
  ghost predicate Complains(raw: Raw) {
    raw.Http? && raw.body.Some?
    && exists r :: r in raw.body.value.responses && r.error != None && r.error != Some(JNull)
  }

  /** When a call ends in which way. */
  lemma ClassifyExactly(raw: Raw)
    ensures var reply, http := Classify(raw), raw.Http? && raw.status !in {402, 429};
      && (reply == Failed(Transport) <==> raw == NoResponse)
      && ((reply.Failed? && reply.f.RateLimited?) <==> raw.Http? && raw.status in {402, 429})
      && (reply == Failed(BadResponse) <==> http && raw.status == 200 && raw.body == None)
      && (reply.Answered? <==> http && ((raw.status == 200 && raw.body != None) || Complains(raw)))
      && (reply.Answered? ==> raw.body == Some(reply.res))
      && (reply == Failed(NotImplemented) <==> http && raw.status == 501 && !Complains(raw))
      && (http && raw.status !in {200, 501} && !Complains(raw) ==> reply == Failed(StatusError(raw.status)))
  {
    if raw.Http? && raw.body.Some? {
      var rs := raw.body.value.responses;
      if HasError(raw.body.value) {
        var i :| 0 <= i < |rs| && IsError(rs[i]);
        assert rs[i] in rs;
      }
      if Complains(raw) {
        var r :| r in rs && r.error != None && r.error != Some(JNull);
        var i :| 0 <= i < |rs| && rs[i] == r;
        assert IsError(rs[i]);
      }
    }
  }
}
