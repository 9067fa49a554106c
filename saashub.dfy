/**
 * The SaaSHub API client: the retry policy of one request, the spacing of requests, the
 * `limit` cut of an alternatives list, the product lookup and the batch of alternative
 * lookups. The HTTP exchange is an input: for each attempt, the clock when it starts, the
 * reply (a response or a transport error) and the clock when the response arrived.
 */
module SaasHub {
  import opened Wrappers
  import opened Strings

  /** `MAX_RETRIES`: the number of attempts of one request. */
  const MaxRetries: nat := 3

  /** The default spacing of requests: about five a minute. */
  const DefaultRequestDelay: real := 12.0

  /** One product of a reply: its `id`, `attributes.name` and `attributes.saashubUrl`. */
  datatype Alternative = Alternative(id: Option<string>, name: Option<string>, saashubUrl: Option<string>)

  /** The parts of a JSON reply that are read: `data.alternatives` and `data.product`, `None` when missing. */
  datatype Body = Body(alternatives: Option<seq<Alternative>>, product: Option<Alternative>)

  /**
   * What one attempt gets back: a response (status, parsed `Retry-After` header, text,
   * body, and what the HTTP library says of it as an error), or a transport error.
   */
  datatype Reply =
    | Response(status: nat, retryAfter: Option<nat>, text: string, body: Body, description: string)
    | Unreachable(description: string)

  /** One attempt: the clock when it starts waiting, the reply, the clock when the response arrived. */
  datatype Exchange = Exchange(startedAt: real, reply: Reply, answeredAt: real)

  /** `RateLimitError` and the other `SaaSHubAPIError`s; every one of them is a `SaaSHubAPIError`. */
  datatype Failure =
    | RateLimitFailure(retryAfter: nat)
    | ClientFailure(status: nat, text: string)
    | ExhaustedFailure(lastError: string)

  /** `str(e)` of each failure. */
  function Message(f: Failure): string {
    match f
    case RateLimitFailure(_) => "Rate limit exceeded after 3 attempts."
    case ClientFailure(status, text) => "API request failed: " + NatToString(status) + " - " + text
    case ExhaustedFailure(e) => "Request failed after 3 attempts: " + e
  }

  /** How `_make_request` ends: the parsed reply, or the error it raises. */
  datatype Outcome = Fetched(body: Body) | Failed(failure: Failure)

  predicate IsSuccess(status: nat) {
    200 <= status < 300
  }

  /** The client errors that are never retried. */
  predicate IsClientError(status: nat) {
    status == 400 || status == 401 || status == 403 || status == 404
  }

  function Pow2(n: nat): (p: nat)
    ensures p >= 1
  {
    if n == 0 then 1 else 2 * Pow2(n - 1)
  }

  /** A reply after which the request is tried again, if an attempt is left. */
  predicate Retryable(r: Reply) {
    r.Unreachable? || r.status == 429 || (!IsSuccess(r.status) && !IsClientError(r.status))
  }

  /** The pause before the next attempt: `Retry-After` for a 429 when given, else `RETRY_DELAY * 2**attempt`. */
  function PauseAfter(r: Reply, attempt: nat): nat {
    if r.Response? && r.status == 429 then r.retryAfter.GetOr(Pow2(attempt)) else Pow2(attempt)
  }

  /** How the request ends when attempt number `attempt` is the last one made. */
  function Settled(r: Reply, attempt: nat): Outcome {
    match r
    case Unreachable(d) => Failed(ExhaustedFailure(d))
    case Response(status, retryAfter, text, body, d) =>
      if status == 429 then Failed(RateLimitFailure(retryAfter.GetOr(Pow2(attempt))))
      else if IsSuccess(status) then Fetched(body)
      else if IsClientError(status) then Failed(ClientFailure(status, text))
      else Failed(ExhaustedFailure(d))
  }

  /** `_last_request_time` after an exchange: only an arrived response sets it. */
  function LastRequest(e: Exchange, last: Option<real>): Option<real> {
    if e.reply.Response? then Some(e.answeredAt) else last
  }

  datatype RequestRun = RequestRun(outcome: Outcome, calls: nat, pauses: seq<nat>, last: Option<real>)

  /** The attempts of `_make_request` from number `k` on, with `last` the time of the last response. */
  function Attempts(exchanges: seq<Exchange>, k: nat, last: Option<real>): RequestRun
    requires k < MaxRetries <= |exchanges|
    decreases MaxRetries - k
  {
    var e := exchanges[k];
    if Retryable(e.reply) && k < MaxRetries - 1 then
      var rest := Attempts(exchanges, k + 1, LastRequest(e, last));
      rest.(pauses := [PauseAfter(e.reply, k)] + rest.pauses)
    else RequestRun(Settled(e.reply, k), k + 1, [], LastRequest(e, last))
  }

  /**
   * At most `MAX_RETRIES` attempts: every attempt but the last got a reply that is retried,
   * the last one got a reply that is not, or no attempt was left; each retry was preceded
   * by its pause; and the reply of the last attempt decides the outcome.
   */
  lemma {:induction false} AttemptsEnd(exchanges: seq<Exchange>, k: nat, last: Option<real>)
    requires k < MaxRetries <= |exchanges|
    ensures var r := Attempts(exchanges, k, last);
            && k < r.calls <= MaxRetries
            && (forall i :: k <= i < r.calls - 1 ==> Retryable(exchanges[i].reply))
            && (!Retryable(exchanges[r.calls - 1].reply) || r.calls == MaxRetries)
            && r.outcome == Settled(exchanges[r.calls - 1].reply, r.calls - 1)
            && |r.pauses| == r.calls - 1 - k
            && (forall i :: 0 <= i < |r.pauses| ==> r.pauses[i] == PauseAfter(exchanges[k + i].reply, k + i))
    decreases MaxRetries - k
  {
    var e := exchanges[k];
    if Retryable(e.reply) && k < MaxRetries - 1 {
      AttemptsEnd(exchanges, k + 1, LastRequest(e, last));
    }
  }

  /** The replies alone decide the outcome, the attempts made and the pauses; the clock does not. */
  lemma {:induction false} AttemptsIgnoreClock(exchanges: seq<Exchange>, k: nat, last1: Option<real>, last2: Option<real>)
    requires k < MaxRetries <= |exchanges|
    ensures Attempts(exchanges, k, last1).outcome == Attempts(exchanges, k, last2).outcome
    ensures Attempts(exchanges, k, last1).calls == Attempts(exchanges, k, last2).calls
    ensures Attempts(exchanges, k, last1).pauses == Attempts(exchanges, k, last2).pauses
    decreases MaxRetries - k
  {
    var e := exchanges[k];
    if Retryable(e.reply) && k < MaxRetries - 1 {
      AttemptsIgnoreClock(exchanges, k + 1, LastRequest(e, last1), LastRequest(e, last2));
    }
  }

  /**
   * What each outcome of a request tells about its last reply: a rate-limit error comes
   * only from a 429 on the last attempt and carries its header or 4 seconds; a client
   * error is raised on 400, 401, 403 or 404; a fetched body is a 2xx reply's; the
   * "failed after 3 attempts" error ends a third transport or other non-2xx failure.
   */
  lemma SettledMeaning(exchanges: seq<Exchange>)
    requires MaxRetries <= |exchanges|
    ensures var r := Attempts(exchanges, 0, None); var e := exchanges[r.calls - 1].reply;
            && (r.outcome.Failed? && r.outcome.failure.RateLimitFailure? <==>
                  r.calls == MaxRetries && e.Response? && e.status == 429)
            && (r.outcome.Failed? && r.outcome.failure.RateLimitFailure? ==>
                  r.outcome.failure.retryAfter == e.retryAfter.GetOr(4))
            && (r.outcome.Failed? && r.outcome.failure.ClientFailure? <==> e.Response? && IsClientError(e.status))
            && (r.outcome.Fetched? <==> e.Response? && IsSuccess(e.status))
            && (r.outcome.Fetched? ==> r.outcome.body == e.body)
            && (r.outcome.Failed? && r.outcome.failure.ExhaustedFailure? ==>
                  r.calls == MaxRetries && r.outcome.failure.lastError == e.description)
  {
    AttemptsEnd(exchanges, 0, None);
    var r := Attempts(exchanges, 0, None);
    assert r.calls == MaxRetries ==> Pow2(r.calls - 1) == 4;
  }

  /** A client error is raised on the first attempt that gets one, with no retry. */
  lemma ClientErrorNotRetried(exchanges: seq<Exchange>)
    requires MaxRetries <= |exchanges|
    requires exchanges[0].reply.Response? && IsClientError(exchanges[0].reply.status)
    ensures Attempts(exchanges, 0, None).calls == 1
    ensures Attempts(exchanges, 0, None).outcome == Failed(ClientFailure(exchanges[0].reply.status, exchanges[0].reply.text))
  {
  }

  // ---------------------------------------------------------------------------
  // What the endpoints make of the outcome

  /** `alternatives[:limit]` when `limit` is positive, else all of them. */
  function LimitAlternatives(alternatives: seq<Alternative>, limit: Option<int>): (r: seq<Alternative>)
    ensures |r| == if limit.Some? && 0 < limit.value < |alternatives| then limit.value else |alternatives|
    ensures r == alternatives[..|r|]
  {
    if limit.Some? && limit.value > 0 then
      if limit.value < |alternatives| then alternatives[..limit.value] else alternatives
    else alternatives
  }

  datatype AlternativesResult = Alternatives(items: seq<Alternative>) | AlternativesFailed(failure: Failure)

  /** `get_alternatives`: the reply's alternatives (none when missing) cut to `limit`; errors are passed on. */
  function AlternativesOf(o: Outcome, limit: Option<int>): AlternativesResult {
    match o
    case Fetched(body) => Alternatives(LimitAlternatives(body.alternatives.GetOr([]), limit))
    case Failed(f) => AlternativesFailed(f)
  }

  /** `get_product` ends with a product, with "not found", or with the error it re-raises. */
  datatype ProductResult = Found(product: Alternative) | NotFound | ProductFailed(failure: Failure)

  /** `get_product` as written: every error whose text contains "404" is taken for "not found". */
  function ProductOfAsWritten(o: Outcome): (r: ProductResult)
    ensures r.Found? <==> o.Fetched? && o.body.product.Some?
    ensures r.Found? ==> r.product == o.body.product.value
    ensures r.ProductFailed? ==> o.Failed? && r.failure == o.failure
  {
    match o
    case Fetched(body) => if body.product.Some? then Found(body.product.value) else NotFound
    case Failed(f) => if Contains(Message(f), "404") then NotFound else ProductFailed(f)
  }

  /** `get_product` as intended: only a 404 reply means "not found". */
  function ProductOf(o: Outcome): (r: ProductResult)
    ensures r.ProductFailed? <==> o.Failed? && !(o.failure.ClientFailure? && o.failure.status == 404)
  {
    match o
    case Fetched(body) => if body.product.Some? then Found(body.product.value) else NotFound
    case Failed(f) => if f.ClientFailure? && f.status == 404 then NotFound else ProductFailed(f)
  }

  /** Only a missing product or a 404 reply is reported as "not found"; every other error is re-raised. */
  lemma NotFoundMeans(o: Outcome)
    ensures ProductOf(o) == NotFound <==>
              (o.Fetched? && o.body.product.None?) || (o.Failed? && o.failure.ClientFailure? && o.failure.status == 404)
    ensures o.Failed? && !(o.failure.ClientFailure? && o.failure.status == 404) ==> ProductOf(o) == ProductFailed(o.failure)
  {
  }

  /** A 404 reply is "not found" both as written and as intended. */
  lemma NotFoundAgreesOn404(text: string)
    ensures ProductOf(Failed(ClientFailure(404, text))) == NotFound
    ensures ProductOfAsWritten(Failed(ClientFailure(404, text))) == NotFound
  {
    var m := Message(ClientFailure(404, text));
    assert NatToString(404) == "404";
    assert m == "API request failed: 404" + " - " + text;
    ContainsFromAt(m, "404", 20);
  }

  /**
   * The two mappings differ exactly on an error that is not a 404 reply but whose text
   * contains "404": as written it is "not found", as intended it is re-raised.
   */
  lemma AsWrittenDiffers(o: Outcome)
    ensures ProductOfAsWritten(o) != ProductOf(o) <==>
              o.Failed? && Contains(Message(o.failure), "404") && !(o.failure.ClientFailure? && o.failure.status == 404)
    ensures ProductOfAsWritten(o) != ProductOf(o) ==>
              ProductOfAsWritten(o) == NotFound && ProductOf(o) == ProductFailed(o.failure)
  {
    if o.Failed? && o.failure.ClientFailure? && o.failure.status == 404 {
      NotFoundAgreesOn404(o.failure.text);
    }
  }

  /**
   * As written, a 403 whose text mentions "404" (an error page, say) is taken for "not
   * found", where it is an error to re-raise.
   */
  lemma AsWrittenMasksForbidden(text: string)
    requires Contains(text, "404")
    ensures ProductOfAsWritten(Failed(ClientFailure(403, text))) == NotFound
    ensures ProductOf(Failed(ClientFailure(403, text))) == ProductFailed(ClientFailure(403, text))
  {
    var m := Message(ClientFailure(403, text));
    var head := "API request failed: " + NatToString(403) + " - ";
    assert m == head + text;
    assert (head + text)[|head|..] == text;
    ContainsShift(head + text, "404", |head|);
  }

  /** One entry of `get_alternatives_batch`: a failed lookup stands for no alternatives. */
  function BatchEntry(r: AlternativesResult): seq<Alternative> {
    if r.Alternatives? then r.items else []
  }

  /** The outcome of one request, whatever the clock. */
  function RequestOutcome(exchanges: seq<Exchange>): Outcome
    requires MaxRetries <= |exchanges|
  {
    Attempts(exchanges, 0, None).outcome
  }

  predicate EnoughAnswers(exchanges: seq<seq<Exchange>>) {
    forall i :: 0 <= i < |exchanges| ==> MaxRetries <= |exchanges[i]|
  }

  /** The dict `get_alternatives_batch` fills: each query in turn, a later one overwriting an earlier. */
  function BatchResults(queries: seq<string>, limit: Option<int>, exchanges: seq<seq<Exchange>>): map<string, seq<Alternative>>
    requires |exchanges| == |queries| && EnoughAnswers(exchanges)
  {
    if queries == [] then map[]
    else
      var n := |queries| - 1;
      BatchResults(queries[..n], limit, exchanges[..n])[queries[n] := BatchEntry(AlternativesOf(RequestOutcome(exchanges[n]), limit))]
  }

  /**
   * Every query gets an entry, and a query's entry is what its last lookup gave: the
   * alternatives when it succeeded, none when it failed.
   */
  lemma {:induction false} BatchCovers(queries: seq<string>, limit: Option<int>, exchanges: seq<seq<Exchange>>, j: nat)
    requires |exchanges| == |queries| && EnoughAnswers(exchanges)
    requires j < |queries| && forall i :: j < i < |queries| ==> queries[i] != queries[j]
    ensures queries[j] in BatchResults(queries, limit, exchanges)
    ensures BatchResults(queries, limit, exchanges)[queries[j]] == BatchEntry(AlternativesOf(RequestOutcome(exchanges[j]), limit))
  {
    var n := |queries| - 1;
    if j < n {
      assert queries[..n][j] == queries[j] && exchanges[..n][j] == exchanges[j];
      BatchCovers(queries[..n], limit, exchanges[..n], j);
    }
  }

  /** `_last_request_time` after the lookups of a batch, one request after another. */
  function BatchLast(exchanges: seq<seq<Exchange>>, last: Option<real>): Option<real>
    requires EnoughAnswers(exchanges)
  {
    if exchanges == [] then last
    else
      var n := |exchanges| - 1;
      Attempts(exchanges[n], 0, BatchLast(exchanges[..n], last)).last
  }

  /** One more lookup of a batch: its entry and its request time follow the ones before. */
  lemma BatchStep(queries: seq<string>, limit: Option<int>, exchanges: seq<seq<Exchange>>, i: nat, last: Option<real>)
    requires |exchanges| == |queries| && EnoughAnswers(exchanges) && i < |queries|
    ensures BatchResults(queries[..i + 1], limit, exchanges[..i + 1]) ==
              BatchResults(queries[..i], limit, exchanges[..i])[queries[i] := BatchEntry(AlternativesOf(RequestOutcome(exchanges[i]), limit))]
    ensures BatchLast(exchanges[..i + 1], last) == Attempts(exchanges[i], 0, BatchLast(exchanges[..i], last)).last
  {
    assert queries[..i + 1][..i] == queries[..i] && exchanges[..i + 1][..i] == exchanges[..i];
  }

  /** No entry but for a query. */
  lemma {:induction false} BatchKeys(queries: seq<string>, limit: Option<int>, exchanges: seq<seq<Exchange>>)
    requires |exchanges| == |queries| && EnoughAnswers(exchanges)
    ensures forall q :: q in BatchResults(queries, limit, exchanges) <==> q in queries
  {
    if queries != [] {
      var n := |queries| - 1;
      BatchKeys(queries[..n], limit, exchanges[..n]);
      assert queries == queries[..n] + [queries[n]];
    }
  }

  /** The `api_key or SAASHUB_API_KEY` choice; `None` is the `ValueError` for a missing key. */
  function ApiKeyOf(given: Option<string>, environment: Option<string>): (k: Option<string>)
    ensures k.Some? <==> Truthy(given) || Truthy(environment)
    ensures k.Some? ==> k.value != "" && (k == given || k == environment)
    ensures Truthy(given) ==> k == given
  {
    if Truthy(given) then given else if Truthy(environment) then environment else None
  }

  /** `SaaSHubClient`: the key, the spacing of requests and when the last response arrived. */
  class Client {
    const apiKey: string
    const requestDelay: real
    var lastRequestTime: Option<real>

    constructor (key: string, delay: real)
      requires key != ""
      ensures apiKey == key && requestDelay == delay && lastRequestTime == None
    {
      apiKey := key;
      requestDelay := delay;
      lastRequestTime := None;
    }

    /**
     * `_wait_for_rate_limit` at clock reading `now`: the shortest sleep after which
     * `request_delay` has passed since the last response, none before the first one.
     */
    method WaitForRateLimit(now: real) returns (slept: real)
      ensures slept >= 0.0
      ensures lastRequestTime.Some? ==> now + slept >= lastRequestTime.value + requestDelay
      ensures slept == 0.0 || (lastRequestTime.Some? && now + slept == lastRequestTime.value + requestDelay)
      ensures lastRequestTime.None? ==> slept == 0.0
    {
      slept := 0.0;
      if lastRequestTime.Some? {
        var elapsed := now - lastRequestTime.value;
        if elapsed < requestDelay {
          slept := requestDelay - elapsed;
        }
      }
    }

    /**
     * `_make_request`, with `exchanges[k]` what attempt `k` gets; returns the outcome,
     * the attempts made and the pauses slept between them.
     */
    method MakeRequest(exchanges: seq<Exchange>) returns (outcome: Outcome, calls: nat, pauses: seq<nat>)
      requires MaxRetries <= |exchanges|
      modifies this
      ensures var run := Attempts(exchanges, 0, old(lastRequestTime));
              && outcome == run.outcome && calls == run.calls && pauses == run.pauses
              && lastRequestTime == run.last
    {
      ghost var run := Attempts(exchanges, 0, lastRequestTime);
      var attempt: nat := 0;
      var lastError: Option<string> := None;
      pauses := [];
      while attempt < MaxRetries
        invariant attempt <= MaxRetries
        invariant attempt < MaxRetries ==> Continues(run, Attempts(exchanges, attempt, lastRequestTime), pauses)
        invariant attempt == MaxRetries ==>
                    lastError.Some? && Continues(run, RequestRun(Failed(ExhaustedFailure(lastError.value)), MaxRetries, [], lastRequestTime), pauses)
        decreases MaxRetries - attempt
      {
        var _ := WaitForRateLimit(exchanges[attempt].startedAt);
        var e := exchanges[attempt];
        ghost var before := lastRequestTime;
        ghost var done := pauses;
        match e.reply {
          case Unreachable(d) =>
            lastError := Some(d);
          case Response(status, retryAfterHeader, text, body, d) =>
            lastRequestTime := Some(e.answeredAt);
            if status == 429 {
              var retryAfter := retryAfterHeader.GetOr(Pow2(attempt));
              if attempt < MaxRetries - 1 {
                pauses := pauses + [retryAfter];
                RetryStep(run, exchanges, attempt, before, done);
                attempt := attempt + 1;
                continue;
              }
              SettleStep(run, exchanges, attempt, before, done);
              return Failed(RateLimitFailure(retryAfter)), attempt + 1, pauses;
            }
            if IsSuccess(status) {
              SettleStep(run, exchanges, attempt, before, done);
              return Fetched(body), attempt + 1, pauses;
            }
            lastError := Some(d);
            if IsClientError(status) {
              SettleStep(run, exchanges, attempt, before, done);
              return Failed(ClientFailure(status, text)), attempt + 1, pauses;
            }
        }
        if attempt < MaxRetries - 1 {
          pauses := pauses + [Pow2(attempt)];
          RetryStep(run, exchanges, attempt, before, done);
        } else {
          SettleStep(run, exchanges, attempt, before, done);
        }
        attempt := attempt + 1;
      }
      return Failed(ExhaustedFailure(lastError.value)), MaxRetries, pauses;
    }

    /** `get_alternatives`: the alternatives of the reply, cut to `limit`. */
    method GetAlternatives(limit: Option<int>, exchanges: seq<Exchange>) returns (r: AlternativesResult)
      requires MaxRetries <= |exchanges|
      modifies this
      ensures r == AlternativesOf(RequestOutcome(exchanges), limit)
      ensures lastRequestTime == Attempts(exchanges, 0, old(lastRequestTime)).last
    {
      AttemptsIgnoreClock(exchanges, 0, lastRequestTime, None);
      var outcome, _, _ := MakeRequest(exchanges);
      match outcome {
        case Fetched(body) =>
          var alternatives := body.alternatives.GetOr([]);
          if limit.Some? && limit.value > 0 {
            alternatives := if limit.value < |alternatives| then alternatives[..limit.value] else alternatives;
          }
          r := Alternatives(alternatives);
        case Failed(f) =>
          r := AlternativesFailed(f);
      }
    }

    /** `get_product`: "not found" for a missing product, or for any error whose text contains "404". */
    method GetProduct(exchanges: seq<Exchange>) returns (r: ProductResult)
      requires MaxRetries <= |exchanges|
      modifies this
      ensures r == ProductOfAsWritten(RequestOutcome(exchanges))
      ensures lastRequestTime == Attempts(exchanges, 0, old(lastRequestTime)).last
    {
      AttemptsIgnoreClock(exchanges, 0, lastRequestTime, None);
      var outcome, _, _ := MakeRequest(exchanges);
      match outcome {
        case Fetched(body) =>
          r := if body.product.Some? then Found(body.product.value) else NotFound;
        case Failed(f) =>
          r := if Contains(Message(f), "404") then NotFound else ProductFailed(f);
      }
    }

    /** `get_alternatives_batch`, with `exchanges[i]` the replies to the lookup of `queries[i]`. */
    method GetAlternativesBatch(queries: seq<string>, limit: Option<int>, exchanges: seq<seq<Exchange>>)
      returns (results: map<string, seq<Alternative>>)
      requires |exchanges| == |queries| && EnoughAnswers(exchanges)
      modifies this
      ensures results == BatchResults(queries, limit, exchanges)
      ensures lastRequestTime == BatchLast(exchanges, old(lastRequestTime))
    {
      results := map[];
      var i := 0;
      while i < |queries|
        invariant 0 <= i <= |queries|
        invariant results == BatchResults(queries[..i], limit, exchanges[..i])
        invariant lastRequestTime == BatchLast(exchanges[..i], old(lastRequestTime))
      {
        BatchStep(queries, limit, exchanges, i, old(lastRequestTime));
        var alternatives := GetAlternatives(limit, exchanges[i]);
        match alternatives {
          case Alternatives(items) =>
            results := results[queries[i] := items];
          case AlternativesFailed(_) =>
            results := results[queries[i] := []];
        }
        i := i + 1;
      }
      assert queries[..i] == queries && exchanges[..i] == exchanges;
    }
  }

  /** A retried attempt: the rest of the request is the run from the next attempt, after one more pause. */
  lemma RetryStep(run: RequestRun, exchanges: seq<Exchange>, k: nat, last: Option<real>, pauses: seq<nat>)
    requires k < MaxRetries - 1 && MaxRetries <= |exchanges| && Retryable(exchanges[k].reply)
    requires Continues(run, Attempts(exchanges, k, last), pauses)
    ensures Continues(run, Attempts(exchanges, k + 1, LastRequest(exchanges[k], last)), pauses + [PauseAfter(exchanges[k].reply, k)])
  {
  }

  /** The attempt that ends the request decides the whole run. */
  lemma SettleStep(run: RequestRun, exchanges: seq<Exchange>, k: nat, last: Option<real>, pauses: seq<nat>)
    requires k < MaxRetries <= |exchanges| && !(Retryable(exchanges[k].reply) && k < MaxRetries - 1)
    requires Continues(run, Attempts(exchanges, k, last), pauses)
    ensures run.outcome == Settled(exchanges[k].reply, k) && run.calls == k + 1
    ensures run.pauses == pauses && run.last == LastRequest(exchanges[k], last)
  {
  }

  /** `rest` is the run from some attempt on, and `run` the whole request once `pauses` are put first. */
  predicate Continues(run: RequestRun, rest: RequestRun, pauses: seq<nat>) {
    rest.outcome == run.outcome && rest.calls == run.calls && rest.last == run.last && run.pauses == pauses + rest.pauses
  }
}
