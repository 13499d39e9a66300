# AI Data Processor — a Dafny model of its processing core

The service is a small Flask application with three parts. `DataProcessor.process` merges an input dict with five
metadata fields. `DataProcessor.process_batch` runs `process` over the first `max_items` items of a list, tolerating
partial failure. Two POST handlers validate the JSON body and choose a status code and error label. The before- and
after-request hooks keep Prometheus metrics: active connections, requests by (method, path, status), latency
observations by path, errors by type, and processing-time observations by operation.

The model has six modules:

- `Wrappers`: `Option` and `Result`.
- `Json`: parsed JSON values, the parse outcome of `request.get_json()`, Python truthiness, and Python's `in` operator
  on a dict, a list or a string.
- `Metrics`: labelled counters as maps from label values to `nat`, and the `Registry` class. The five instruments,
  declared at module level in the source, are held in this one explicitly constructed object. Its methods model
  `.inc()`, a timer's observation, and the two request hooks.
- `Processor`:
  - the result dict as the right-biased map union `Metadata(...) + data`;
  - the batch loop as a recursive function `Run`, which follows the loop iteration by iteration;
  - two independently written reference definitions, `Successes` and `CountFailing`;
  - the class `DataProcessor`, whose field `processedCount` the methods update in place. `ProcessEach` is the `for` loop
    with its invariants, and `Absorb` is its body.
- `Routes`:
  - each handler's decision as a pure function of the body (`SingleRoute`, `BatchRoute`);
  - the class `Service`, which runs those decisions against the shared processor and registry (`PostProcess`,
    `PostBatch`) and wraps a request in the two hooks (`Serve`).
- `Scenarios`: the repository's unit-test scenarios, plus the metadata collision, as lemmas.

Time-derived values are parameters: `processed_at`, `processing_time_ms`, the batch's `duration_seconds` and the
request start time. So is `len(str(data))`, which depends on Python's dict repr. One `process` call receives a `Stamp`
holding the three per-call values. A batch receives `stamps(i)` for its i-th attempted item. The model does not call a
clock or measure a repr.

Three behaviours of the code are easy to misread, and the model states them as written:

- Input keys overwrite the metadata keys (`status`, `processed_at`, …), because `**data` is spread after them.
  `ResultShape` and `InputOverridesStatus` state this.
- `processed_count` increases on every `process` call, before the merge, including calls that fail on a non-dict item.
- A batch's `total` is `len(items)`, the untruncated length, even when items beyond `max_items` were never attempted.

## Model

| member | source | states |
|---|---|---|
| Metrics.Inc | src/app/app.py:35-39 | `labels(k).inc()` raises series k by exactly one and leaves every other series unchanged |
| Metrics.IncBy | src/app/app.py:103-113 | n increments of series k raise it by n and leave every other series unchanged |
| Metrics.IncEach | src/app/app.py:206-207 | after a sequence of increments, each series has risen by the number of times the sequence names it |
| Metrics.Registry.constructor | src/app/app.py:22-50 | a fresh registry has every counter and histogram empty and the gauge at 0 |
| Metrics.Registry.IncError | src/app/app.py:35-39 | `ERROR_COUNT.labels(type=kind).inc()` raises that one series and changes no other instrument |
| Metrics.Registry.ObserveProcessing | src/app/app.py:46-50 | leaving a `PROCESSING_TIME` timer scope adds one observation for the operation and changes nothing else |
| Metrics.Registry.BeforeRequest | src/app/app.py:135-139 | the gauge goes up by one; the start time is recorded on the request; nothing else changes |
| Metrics.Registry.AfterRequest | src/app/app.py:141-156 | the gauge goes down by one; latency and request counts rise by one for the path and for (method, path, status) only when a start time was recorded |
| Processor.ToItem | src/app/app.py:202 | a parsed body is a mapping item exactly when it is a JSON object |
| Processor.Metadata | src/app/app.py:70-75 | the metadata has exactly the five reserved keys |
| Processor.ResultShape | src/app/app.py:70-77 | the result's keys are the reserved keys plus the input's keys; every input key keeps its input value, even one named like a metadata key; each metadata key absent from the input holds the pipeline's value, with `processor_count` equal to the counter |
| Processor.Processed | src/app/app.py:58-93 | `process` succeeds exactly on a mapping item; on any other item it fails with the TypeError of `**data` on that value |
| Processor.Attempted | src/app/app.py:103 | `items[:max_items]` is the prefix of length min(len(items), max_items) |
| Processor.Run | src/app/app.py:100-113 | after n iterations of the batch loop, results plus failures number exactly n |
| Processor.RunMatchesSuccesses | src/app/app.py:103-106 | the loop's results are the merged records of the mapping items, in input order, each built with the counter value of its own call |
| Processor.RunMatchesFailures | src/app/app.py:107-112 | the loop's failure count is the number of non-mapping items attempted |
| Processor.AllMappingsNeverFail | src/app/app.py:103-113 | a run of mapping items contains no failure |
| Processor.SuccessCountersAbove | src/app/app.py:67-75 | when no input carries `processor_count`, every result from position i on carries a counter above base + i |
| Processor.SuccessCountersIncrease | src/app/app.py:67-75 | when no input carries `processor_count`, the results carry strictly increasing counters |
| Processor.BatchSpec | src/app/app.py:95-131 | the report's total is the untruncated length; processed equals the number of results; processed + failed = min(len(items), max_items); results and failed are as the reference definitions give them; the duration is the one measured |
| Processor.AllMappingsBatch | src/app/app.py:103-131 | a batch of at most max_items mapping items is processed in full: processed = len(results) = total = n, failed = 0 |
| Processor.BatchCountersIncrease | src/app/app.py:103-113 | one batch's `processor_count` values, when no attempted item shadows them, rise strictly and all exceed the counter before the batch |
| Processor.DataProcessor.constructor | src/app/app.py:55-56 | the counter starts at 0, bound to the given registry |
| Processor.DataProcessor.Process | src/app/app.py:58-93 | the counter rises by exactly one on every call; the outcome is `Processed` with the new counter value; `processing_error` rises by one only on failure; the `single` timer observes once on both paths; nothing else changes |
| Processor.DataProcessor.ProcessBatch | src/app/app.py:95-131 | the report is `BatchSpec`; the counter rises by the attempted count; `processing_error` rises by exactly `failed`; the `single` timer observes once per attempted item and the `batch` timer once |
| Processor.DataProcessor.ProcessEach | src/app/app.py:100-113 | the loop over the attempted items yields `Run`'s results and failure count, having raised the counter by the item count and `processing_error` by the failures |
| Processor.DataProcessor.Absorb | src/app/app.py:104-113 | one loop iteration takes `Run` from i to i + 1 items: a success is appended, a failure counted, and the counter and metrics move accordingly |
| Routes.SingleRoute | src/app/app.py:189-216 | 400 with `invalid_request` exactly for an absent or falsy body; 200 with the merged record and no error label exactly for a non-empty object; a truthy non-object gives 500 after `processing_error` and `server_error`; a parse failure gives 500 after `server_error` |
| Routes.ItemsOf | src/app/app.py:103 | slicing a list gives its elements as items; slicing a string gives its one-character strings; other values do not slice |
| Routes.BatchRoute | src/app/app.py:218-245 | the body is refused exactly when it is absent, falsy or lacks `items`; it reaches `process_batch` exactly when it is an object holding `items`; the dispatched items are those of `items[:max_items]`, or the slice raises inside the batch timer |
| Routes.Service.constructor | src/app/app.py:133 | one processor and one registry, shared, with all state empty |
| Routes.Service.PostProcess | src/app/app.py:189-216 | the reply is `SingleRoute`; the error counters rise by exactly the reply's labels; the counter and the `single` timer move only when the body reaches `process` |
| Routes.Service.PostBatch | src/app/app.py:218-245 | per `BatchRoute` case: 400 after `invalid_batch`; 500 after `batch_error` (with one `batch` observation when the slice raised); 200 with the `BatchSpec` report for max_items = 100 and the batch's metric changes |
| Routes.Service.Serve | src/app/app.py:135-245 | a request through both hooks leaves the gauge where it was, counts the request once under (method, path, status) and adds one latency observation for its path; on the two POST routes the status, error counts, processing observations and counter are the handler's, as `PostProcess` and `PostBatch` state them; any other route changes none of these |
| Scenarios.ProcessEchoesInput | tests/unit/test_app.py:32-47 | the 200 reply carries status "success", a processing time and the input fields |
| Scenarios.EmptyPostRefused | tests/unit/test_app.py:49-54 | a POST without a body is refused with 400 and `invalid_request` |
| Scenarios.BatchOfThree | tests/unit/test_app.py:56-74 | the three-item batch is dispatched: processed 3, failed 0, three results, total 3 |
| Scenarios.EmptyBatchRefused | tests/unit/test_app.py:76-85 | `{}` posted to the batch route is refused |
| Scenarios.ProcessorKeepsEntry | tests/unit/test_app.py:109-115 | `process({'test': 'data'})` succeeds and keeps the input entry |
| Scenarios.ProcessorBatchOfFive | tests/unit/test_app.py:117-123 | five dict items: processed 5, failed 0, five results |
| Scenarios.InputOverridesStatus | src/app/app.py:70-77 | an input field named `status` replaces the pipeline's "success" |

## Left out

- Logging: the structured `logger.info`/`warning`/`error` calls have no observable effect on results or metrics.
- Time and floating point: `time.time()`, `time.sleep`, `round(...)` and the elapsed durations are parameters (`Stamp`,
  `duration`, `now`). Histogram buckets and sums are not kept, only the number of observations per label.
- `len(str(data))` depends on Python's dict repr; it is the `dataLength` parameter of a `Stamp`.
- The `/metrics` exposition (`generate_latest`) is not modelled.
- The `/api/v1/status` route is not modelled. It reads private `_value` attributes of prometheus_client objects, whose
  behaviour is library code outside this model, and it reads uptime.
- The routes `/` and `/health` return constant JSON apart from a timestamp. `Serve` treats every route outside the model,
  including the 404 handler, as a handler whose status is the parameter `otherStatus` and which touches no state of the
  model.
- The 500 error handler (`internal_error`, `internal_server_error`) is not modelled. The two POST handlers catch every
  exception themselves, so it is never reached from them.
- Configuration (`os.getenv`, `app.run`) is not modelled.
- Concurrency: the model is sequential. Thread safety of metric updates is not modelled.
- Negative `max_items`: the model takes `max_items` as a `nat`. Python would drop items from the end; the route always
  passes 100.
- `request.get_json()` is reduced to three outcomes: no JSON (`Absent`, which is `None` in the Flask version the unit
  tests rely on), a parse failure (`Unparsable`, which raises) and a parsed value.
- The handlers' error messages and the JSON encoding of replies are not modelled; the model keeps the status, the result
  and the error labels.
- Processor.BuildResult: carries no contract of its own. Its properties are stated by the lemma `ResultShape`.
- Processor.BatchCountersIncrease: proves strictly increasing `processor_count` values only when no attempted item
  brings its own `processor_count` key, because such a key overwrites the counter value in that item's result.
