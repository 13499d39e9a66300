/** The metric state of the service: the five instruments declared at module
    level, held in one explicitly constructed registry. A labelled counter is
    a map from label values to a count, where a series that was never touched
    reads as zero; of the two histograms only the number of observations per
    label is kept. */
module Metrics {
  import opened Wrappers

  /** Current value of one series of a labelled counter. */
  function Count<K>(m: map<K, nat>, k: K): nat
  {
    if k in m then m[k] else 0
  }

  /** `counter.labels(k).inc()`: series `k` goes up by one, every other
      series keeps its value. */
  function Inc<K(!new)>(m: map<K, nat>, k: K): (r: map<K, nat>)
    ensures Count(r, k) == Count(m, k) + 1
    ensures forall j :: j != k ==> Count(r, j) == Count(m, j)
  {
    m[k := Count(m, k) + 1]
  }

  /** `n` increments of series `k`. */
  function IncBy<K(!new)>(m: map<K, nat>, k: K, n: nat): (r: map<K, nat>)
    ensures Count(r, k) == Count(m, k) + n
    ensures forall j :: j != k ==> Count(r, j) == Count(m, j)
  {
    if n == 0 then m else m[k := Count(m, k) + n]
  }

  lemma IncByStep<K(!new)>(m: map<K, nat>, k: K, n: nat)
    ensures Inc(IncBy(m, k, n), k) == IncBy(m, k, n + 1)
  {
  }

  /** Increments of the series named by `ks`, one after the other: each
      series goes up by the number of times it is named. */
  function IncEach<K(!new)>(m: map<K, nat>, ks: seq<K>): (r: map<K, nat>)
    ensures forall k :: Count(r, k) == Count(m, k) + multiset(ks)[k]
    decreases |ks|
  {
    if ks == [] then m
    else
      var r := IncEach(Inc(m, ks[0]), ks[1..]);
      assert ks == [ks[0]] + ks[1..];
      assert multiset(ks) == multiset{ks[0]} + multiset(ks[1..]);
      r
  }

  // Values of the `type` label of http_errors_total.
  const ProcessingError: string := "processing_error"
  const InvalidRequest: string := "invalid_request"
  const ServerError: string := "server_error"
  const InvalidBatch: string := "invalid_batch"
  const BatchError: string := "batch_error"

  // Values of the `operation` label of data_processing_duration_seconds.
  const OpSingle: string := "single"
  const OpBatch: string := "batch"

  /** Label values of http_requests_total: method, endpoint, status. */
  datatype RequestKey = RequestKey(verb: string, endpoint: string, status: int)

  /** What the framework keeps for one request between the two hooks; the
      start time is the attribute `request.start_time`, absent when the
      before-request hook did not record it. */
  datatype RequestContext = RequestContext(verb: string, path: string, startTime: Option<real>)

  class Registry {
    /** http_errors_total, by `type`. */
    var errors: map<string, nat>
    /** http_requests_total, by method, endpoint and status. */
    var requests: map<RequestKey, nat>
    /** Number of observations of http_request_duration_seconds, by endpoint. */
    var latency: map<string, nat>
    /** Number of observations of data_processing_duration_seconds, by operation. */
    var processing: map<string, nat>
    /** active_connections. */
    var active: int

    constructor ()
      ensures errors == map[] && requests == map[] && latency == map[]
      ensures processing == map[] && active == 0
    {
      errors, requests, latency, processing, active := map[], map[], map[], map[], 0;
    }

    method IncError(kind: string)
      modifies this
      ensures errors == Inc(old(errors), kind)
      ensures requests == old(requests) && latency == old(latency)
      ensures processing == old(processing) && active == old(active)
    {
      errors := Inc(errors, kind);
    }

    /** Exit of a `PROCESSING_TIME.labels(operation=...).time()` scope: one
        observation, whatever way the scope is left. */
    method ObserveProcessing(operation: string)
      modifies this
      ensures processing == Inc(old(processing), operation)
      ensures errors == old(errors) && requests == old(requests)
      ensures latency == old(latency) && active == old(active)
    {
      processing := Inc(processing, operation);
    }

    /** The before-request hook: one more active connection, and the start
        time recorded on the request. */
    method BeforeRequest(verb: string, path: string, now: real) returns (ctx: RequestContext)
      modifies this
      ensures ctx == RequestContext(verb, path, Some(now))
      ensures active == old(active) + 1
      ensures errors == old(errors) && requests == old(requests)
      ensures latency == old(latency) && processing == old(processing)
    {
      active := active + 1;
      ctx := RequestContext(verb, path, Some(now));
    }

    /** The after-request hook: one active connection fewer; only when the
        start time was recorded, one latency observation for the path and one
        more request in the series of (method, path, status). */
    method AfterRequest(ctx: RequestContext, status: int)
      modifies this
      ensures active == old(active) - 1
      ensures requests == if ctx.startTime.Some?
                          then Inc(old(requests), RequestKey(ctx.verb, ctx.path, status))
                          else old(requests)
      ensures latency == if ctx.startTime.Some? then Inc(old(latency), ctx.path) else old(latency)
      ensures errors == old(errors) && processing == old(processing)
    {
      active := active - 1;
      if ctx.startTime.Some? {
        latency := Inc(latency, ctx.path);
        requests := Inc(requests, RequestKey(ctx.verb, ctx.path, status));
      }
    }
  }
}
