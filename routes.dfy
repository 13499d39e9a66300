/** The two POST handlers and the request hooks around them. Each handler's
    decision is a function of the parsed body (`SingleRoute`, `BatchRoute`);
    `Service` runs them against the shared processor and registry. */
module Routes {
  import opened Wrappers
  import opened Json
  import opened Metrics
  import opened Processor

  const ProcessPath: string := "/api/v1/process"
  const BatchPath: string := "/api/v1/batch"

  /** The `max_items` the batch handler leaves at its default. */
  const DefaultMaxItems: nat := 100

  // ---------------------------------------------------------------------
  // POST /api/v1/process

  /** Status, processing result (on 200) and the error labels the request
      increments, in the order it increments them. */
  datatype SingleReply = SingleReply(status: int, result: Option<Record>, errorLabels: seq<string>)

  /** Whether the single-item handler hands the body to the processor. */
  predicate CallsProcessor(body: Body)
  {
    body.Parsed? && Truthy(body.value)
  }

  /** The single-item handler when the processor's counter stands at
      `count`: an absent or falsy body is refused with 400 and
      `invalid_request`; a parse failure is a 500 with `server_error`;
      anything else goes to `process`, which succeeds only on a dict, and
      whose TypeError is answered with 500 after `processing_error` and
      `server_error`. */
  function SingleRoute(body: Body, stamp: Stamp, count: nat): (r: SingleReply)
    ensures r.status in {200, 400, 500}
    ensures r.status == 400 <==> body.Absent? || (body.Parsed? && !Truthy(body.value))
    ensures r.status == 400 ==> r.errorLabels == [InvalidRequest] && r.result == None
    ensures r.status == 200 <==> body.Parsed? && body.value.Obj? && body.value.fields != map[]
    ensures r.status == 200 ==> r.errorLabels == [] &&
                                r.result == Some(BuildResult(body.value.fields, stamp, count + 1))
    ensures CallsProcessor(body) && !body.value.Obj? ==>
              r.status == 500 && r.errorLabels == [ProcessingError, ServerError]
    ensures body.Unparsable? ==> r.status == 500 && r.errorLabels == [ServerError]
    ensures r.status == 500 ==> r.result == None && ServerError in r.errorLabels
  {
    match body
    case Absent => SingleReply(400, None, [InvalidRequest])
    case Unparsable => SingleReply(500, None, [ServerError])
    case Parsed(v) =>
      if !Truthy(v) then SingleReply(400, None, [InvalidRequest])
      else
        match Processed(ToItem(v), stamp, count + 1)
        case Ok(record) => SingleReply(200, Some(record), [])
        case Err(_) => SingleReply(500, None, [ProcessingError, ServerError])
  }

  // ---------------------------------------------------------------------
  // POST /api/v1/batch

  /** What the batch handler does with a body: refuse it (400), fail before
      reaching the processor (500), call `process_batch` on a value that
      `items[:max_items]` cannot slice (500, after the batch timer has
      observed), or call `process_batch` on a list of items. */
  datatype BatchStep = Reject | Crash | Unsliceable | Dispatch(items: seq<Item>)

  /** The items `process_batch` iterates over for the value under `items`:
      the elements of a list, the one-character strings of a string, and
      nothing for any other value, where slicing raises TypeError. */
  function ItemsOf(v: Value): (r: Option<seq<Item>>)
    ensures r.Some? <==> v.List? || v.Str?
    ensures v.List? ==> |r.value| == |v.elems| &&
                        forall i :: 0 <= i < |v.elems| ==> r.value[i] == ToItem(v.elems[i])
    ensures v.Str? ==> |r.value| == |v.s| &&
                       forall i :: 0 <= i < |v.s| ==> r.value[i] == NonMapping(Str([v.s[i]]))
  {
    match v
    case List(xs) => Some(seq(|xs|, i requires 0 <= i < |xs| => ToItem(xs[i])))
    case Str(s) => Some(seq(|s|, i requires 0 <= i < |s| => NonMapping(Str([s[i]]))))
    case _ => None
  }

  /** The batch handler's decision: `not data or 'items' not in data` refuses
      the body; the membership test raises on a number or a boolean, and
      `data['items']` raises on a list or a string that passed it. */
  function BatchRoute(body: Body): (s: BatchStep)
    ensures s.Reject? <==>
              body.Absent? ||
              (body.Parsed? && (!Truthy(body.value) || PyIn("items", body.value) == Some(false)))
    ensures (s.Dispatch? || s.Unsliceable?) <==>
              body.Parsed? && body.value.Obj? && "items" in body.value.fields
    ensures s.Dispatch? ==> Some(s.items) == ItemsOf(body.value.fields["items"])
    ensures s.Unsliceable? ==> ItemsOf(body.value.fields["items"]).None?
  {
    match body
    case Absent => Reject
    case Unparsable => Crash
    case Parsed(v) =>
      if !Truthy(v) then Reject
      else
        match PyIn("items", v)
        case None => Crash
        case Some(found) =>
          if !found then Reject
          else if !v.Obj? then Crash
          else
            match ItemsOf(v.fields["items"])
            case None => Unsliceable
            case Some(items) => Dispatch(items)
  }

  /** Status and, on 200, the batch report. */
  datatype BatchReply = BatchReply(status: int, report: Option<BatchReport>)

  // ---------------------------------------------------------------------
  // The service: one processor and one registry shared by every request.

  datatype Request = Request(verb: string, path: string, body: Body)

  class Service {
    const metrics: Registry
    const processor: DataProcessor

    ghost predicate Valid()
    {
      processor.metrics == metrics
    }

    constructor ()
      ensures Valid() && fresh(metrics) && fresh(processor)
      ensures processor.processedCount == 0 && metrics.active == 0
      ensures metrics.errors == map[] && metrics.requests == map[]
      ensures metrics.latency == map[] && metrics.processing == map[]
    {
      var registry := new Registry();
      metrics := registry;
      processor := new DataProcessor(registry);
    }

    /** `process_data`. */
    method PostProcess(body: Body, stamp: Stamp) returns (reply: SingleReply)
      requires Valid()
      modifies processor, metrics
      ensures reply == SingleRoute(body, stamp, old(processor.processedCount))
      ensures processor.processedCount
              == old(processor.processedCount) + (if CallsProcessor(body) then 1 else 0)
      ensures metrics.errors == IncEach(old(metrics.errors), reply.errorLabels)
      ensures metrics.processing == if CallsProcessor(body) then Inc(old(metrics.processing), OpSingle)
                                    else old(metrics.processing)
      ensures metrics.requests == old(metrics.requests) && metrics.latency == old(metrics.latency)
      ensures metrics.active == old(metrics.active)
    {
      ghost var errors0 := metrics.errors;
      if body.Unparsable? {
        metrics.IncError(ServerError);
        assert IncEach(errors0, [ServerError]) == IncEach(Inc(errors0, ServerError), []);
        return SingleReply(500, None, [ServerError]);
      }
      if body.Absent? || !Truthy(body.value) {
        metrics.IncError(InvalidRequest);
        assert IncEach(errors0, [InvalidRequest]) == IncEach(Inc(errors0, InvalidRequest), []);
        return SingleReply(400, None, [InvalidRequest]);
      }
      var r := processor.Process(ToItem(body.value), stamp);
      match r {
        case Ok(record) =>
          reply := SingleReply(200, Some(record), []);
        case Err(_) =>
          metrics.IncError(ServerError);
          assert [ProcessingError, ServerError][1..] == [ServerError];
          assert IncEach(errors0, [ProcessingError, ServerError])
                 == IncEach(Inc(Inc(errors0, ProcessingError), ServerError), []);
          reply := SingleReply(500, None, [ProcessingError, ServerError]);
      }
    }

    /** `process_batch` (the route). */
    method PostBatch(body: Body, stamps: nat -> Stamp, duration: real) returns (reply: BatchReply)
      requires Valid()
      modifies processor, metrics
      ensures match BatchRoute(body)
              case Reject =>
                && reply == BatchReply(400, None)
                && metrics.errors == Inc(old(metrics.errors), InvalidBatch)
                && metrics.processing == old(metrics.processing)
                && processor.processedCount == old(processor.processedCount)
              case Crash =>
                && reply == BatchReply(500, None)
                && metrics.errors == Inc(old(metrics.errors), BatchError)
                && metrics.processing == old(metrics.processing)
                && processor.processedCount == old(processor.processedCount)
              case Unsliceable =>
                && reply == BatchReply(500, None)
                && metrics.errors == Inc(old(metrics.errors), BatchError)
                && metrics.processing == Inc(old(metrics.processing), OpBatch)
                && processor.processedCount == old(processor.processedCount)
              case Dispatch(items) =>
                var n := Min(|items|, DefaultMaxItems);
                && reply.status == 200
                && reply.report
                   == Some(BatchSpec(items, DefaultMaxItems, old(processor.processedCount), stamps, duration))
                && metrics.errors == IncBy(old(metrics.errors), ProcessingError, reply.report.value.failed)
                && metrics.processing == Inc(IncBy(old(metrics.processing), OpSingle, n), OpBatch)
                && processor.processedCount == old(processor.processedCount) + n
      ensures metrics.requests == old(metrics.requests) && metrics.latency == old(metrics.latency)
      ensures metrics.active == old(metrics.active)
    {
      var step := BatchRoute(body);
      match step {
        case Reject =>
          metrics.IncError(InvalidBatch);
          reply := BatchReply(400, None);
        case Crash =>
          metrics.IncError(BatchError);
          reply := BatchReply(500, None);
        case Unsliceable =>
          metrics.ObserveProcessing(OpBatch);
          metrics.IncError(BatchError);
          reply := BatchReply(500, None);
        case Dispatch(items) =>
          var report := processor.ProcessBatch(items, DefaultMaxItems, stamps, duration);
          reply := BatchReply(200, Some(report));
      }
    }

    /** One request through the hooks: the before-request hook, the handler
        (`otherStatus` stands for the response of a route outside this
        model), the after-request hook. The gauge ends where it started and
        the request is counted once under its method, path and status. */
    method Serve(req: Request, stamp: Stamp, stamps: nat -> Stamp, duration: real,
                 now: real, otherStatus: int) returns (status: int)
      requires Valid()
      modifies processor, metrics
      ensures metrics.active == old(metrics.active)
      ensures metrics.requests == Inc(old(metrics.requests), RequestKey(req.verb, req.path, status))
      ensures metrics.latency == Inc(old(metrics.latency), req.path)
      ensures req.verb == "POST" && req.path == ProcessPath ==>
                var reply := SingleRoute(req.body, stamp, old(processor.processedCount));
                && status == reply.status
                && metrics.errors == IncEach(old(metrics.errors), reply.errorLabels)
                && metrics.processing == (if CallsProcessor(req.body) then Inc(old(metrics.processing), OpSingle)
                                          else old(metrics.processing))
                && processor.processedCount
                   == old(processor.processedCount) + (if CallsProcessor(req.body) then 1 else 0)
      ensures req.verb == "POST" && req.path == BatchPath ==>
                match BatchRoute(req.body)
                case Reject =>
                  && status == 400
                  && metrics.errors == Inc(old(metrics.errors), InvalidBatch)
                  && metrics.processing == old(metrics.processing)
                  && processor.processedCount == old(processor.processedCount)
                case Crash =>
                  && status == 500
                  && metrics.errors == Inc(old(metrics.errors), BatchError)
                  && metrics.processing == old(metrics.processing)
                  && processor.processedCount == old(processor.processedCount)
                case Unsliceable =>
                  && status == 500
                  && metrics.errors == Inc(old(metrics.errors), BatchError)
                  && metrics.processing == Inc(old(metrics.processing), OpBatch)
                  && processor.processedCount == old(processor.processedCount)
                case Dispatch(items) =>
                  var n := Min(|items|, DefaultMaxItems);
                  var report := BatchSpec(items, DefaultMaxItems, old(processor.processedCount), stamps, duration);
                  && status == 200
                  && metrics.errors == IncBy(old(metrics.errors), ProcessingError, report.failed)
                  && metrics.processing == Inc(IncBy(old(metrics.processing), OpSingle, n), OpBatch)
                  && processor.processedCount == old(processor.processedCount) + n
      ensures !(req.verb == "POST" && (req.path == ProcessPath || req.path == BatchPath)) ==>
                status == otherStatus && metrics.errors == old(metrics.errors) &&
                metrics.processing == old(metrics.processing) &&
                processor.processedCount == old(processor.processedCount)
    {
      var ctx := metrics.BeforeRequest(req.verb, req.path, now);
      if req.verb == "POST" && req.path == ProcessPath {
        var reply := PostProcess(req.body, stamp);
        status := reply.status;
      } else if req.verb == "POST" && req.path == BatchPath {
        var reply := PostBatch(req.body, stamps, duration);
        status := reply.status;
      } else {
        status := otherStatus;
      }
      metrics.AfterRequest(ctx, status);
    }
  }
}
