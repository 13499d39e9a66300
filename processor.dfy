/** The processing pipeline: `DataProcessor.process` on one item and
    `DataProcessor.process_batch` on a list of items. What the clock and
    Python's `repr` contribute to a result is passed in as a `Stamp`. */
module Processor {
  import opened Wrappers
  import opened Json
  import opened Metrics

  /** A processing result: the JSON object handed back to the caller. */
  type Record = map<string, Value>

  /** One input of `process`: a dict, which `**data` can spread, or any
      other JSON value, on which `**data` raises TypeError. */
  datatype Item = Mapping(fields: map<string, Value>) | NonMapping(value: Value)

  function ToItem(v: Value): (it: Item)
    ensures it.Mapping? <==> v.Obj?
  {
    if v.Obj? then Mapping(v.fields) else NonMapping(v)
  }

  /** The clock readings and the payload length of one `process` call:
      `processed_at`, `processing_time_ms` and `len(str(data))`. */
  datatype Stamp = Stamp(processedAt: real, elapsedMs: real, dataLength: nat)

  /** The TypeError that `**data` raises on a value that is not a mapping. */
  datatype ProcessError = NotAMapping(value: Value)

  const ReservedKeys: set<string> :=
    {"status", "processed_at", "processing_time_ms", "data_length", "processor_count"}

  /** The five metadata entries `process` writes before the input's own. */
  function Metadata(stamp: Stamp, count: nat): (m: Record)
    ensures m.Keys == ReservedKeys
  {
    map[
      "status" := Str("success"),
      "processed_at" := Real(stamp.processedAt),
      "processing_time_ms" := Real(stamp.elapsedMs),
      "data_length" := Int(stamp.dataLength),
      "processor_count" := Int(count)
    ]
  }

  /** The dict literal of `process`: metadata first, then `**data`. */
  function BuildResult(data: map<string, Value>, stamp: Stamp, count: nat): Record
  {
    Metadata(stamp, count) + data
  }

  /** A merged record has the five metadata keys and the input's keys; an
      input key that collides with a metadata key keeps the input's value,
      because `**data` comes last; a metadata key the input does not carry
      holds the pipeline's value. */
  lemma ResultShape(data: map<string, Value>, stamp: Stamp, count: nat)
    ensures var r := BuildResult(data, stamp, count);
      && r.Keys == ReservedKeys + data.Keys
      && (forall k :: k in data ==> r[k] == data[k])
      && ("status" !in data ==> r["status"] == Str("success"))
      && ("processed_at" !in data ==> r["processed_at"] == Real(stamp.processedAt))
      && ("processing_time_ms" !in data ==> r["processing_time_ms"] == Real(stamp.elapsedMs))
      && ("data_length" !in data ==> r["data_length"] == Int(stamp.dataLength))
      && ("processor_count" !in data ==> r["processor_count"] == Int(count))
  {
  }

  /** What one `process` call yields once the counter stands at `count`
      (already incremented): the merged record, or the TypeError. */
  function Processed(item: Item, stamp: Stamp, count: nat): (r: Result<Record, ProcessError>)
    ensures r.Ok? <==> item.Mapping?
    ensures r.Err? ==> r.error == NotAMapping(item.value)
  {
    match item
    case Mapping(data) => Ok(BuildResult(data, stamp, count))
    case NonMapping(v) => Err(NotAMapping(v))
  }

  // ---------------------------------------------------------------------
  // Batches

  function Min(a: nat, b: nat): nat
  {
    if a <= b then a else b
  }

  /** `items[:max_items]` for a non-negative bound. */
  function Attempted(items: seq<Item>, maxItems: nat): (r: seq<Item>)
    ensures |r| == Min(|items|, maxItems)
    ensures r == items[..|r|]
  {
    if maxItems <= |items| then items[..maxItems] else items
  }

  /** The two accumulators of the batch loop. */
  datatype Tally = Tally(results: seq<Record>, failed: nat)

  /** The batch loop after its first `n` iterations, when the counter stood
      at `base` before the batch: item `i` is processed with counter value
      `base + i + 1` and clock readings `stamps(i)`. */
  function Run(items: seq<Item>, n: nat, base: nat, stamps: nat -> Stamp): (t: Tally)
    requires n <= |items|
    ensures |t.results| + t.failed == n
    decreases n
  {
    if n == 0 then Tally([], 0)
    else
      var t := Run(items, n - 1, base, stamps);
      match Processed(items[n - 1], stamps(n - 1), base + n)
      case Ok(r) => Tally(t.results + [r], t.failed)
      case Err(_) => Tally(t.results, t.failed + 1)
  }

  /** What item `i` of a batch adds to the results list: its merged record
      when it is a mapping, nothing otherwise. */
  function Contribution(items: seq<Item>, i: nat, base: nat, stamps: nat -> Stamp): seq<Record>
    requires i < |items|
  {
    if items[i].Mapping? then [BuildResult(items[i].fields, stamps(i), base + i + 1)] else []
  }

  /** Reference definition of the results list: the merged record of every
      mapping item from position `from` on, in input order. */
  function Successes(items: seq<Item>, from: nat, base: nat, stamps: nat -> Stamp): seq<Record>
    requires from <= |items|
    decreases |items| - from
  {
    if from == |items| then []
    else Contribution(items, from, base, stamps) + Successes(items, from + 1, base, stamps)
  }

  /** Reference definition of the failure count: the number of items from
      position `from` on that are not mappings. */
  function CountFailing(items: seq<Item>, from: nat): nat
    requires from <= |items|
    decreases |items| - from
  {
    if from == |items| then 0
    else (if items[from].NonMapping? then 1 else 0) + CountFailing(items, from + 1)
  }

  /** The loop's results after `n` items, followed by the reference
      results of the remaining items, are the reference results of the whole
      list. */
  lemma {:induction false} RunMatchesSuccesses(items: seq<Item>, n: nat, base: nat, stamps: nat -> Stamp)
    requires n <= |items|
    ensures Run(items, n, base, stamps).results + Successes(items, n, base, stamps)
            == Successes(items, 0, base, stamps)
    decreases n
  {
    if n > 0 {
      RunMatchesSuccesses(items, n - 1, base, stamps);
      RunStep(items, n, base, stamps);
      SuccessesStep(items, n - 1, base, stamps);
      Associative(Run(items, n - 1, base, stamps).results, Contribution(items, n - 1, base, stamps),
                  Successes(items, n, base, stamps));
    }
  }

  /** Likewise for the failure count. */
  lemma {:induction false} RunMatchesFailures(items: seq<Item>, n: nat, base: nat, stamps: nat -> Stamp)
    requires n <= |items|
    ensures Run(items, n, base, stamps).failed + CountFailing(items, n) == CountFailing(items, 0)
    decreases n
  {
    if n > 0 {
      RunMatchesFailures(items, n - 1, base, stamps);
      RunStep(items, n, base, stamps);
    }
  }

  lemma SuccessesStep(items: seq<Item>, i: nat, base: nat, stamps: nat -> Stamp)
    requires i < |items|
    ensures Successes(items, i, base, stamps)
            == Contribution(items, i, base, stamps) + Successes(items, i + 1, base, stamps)
  {
  }

  /** One iteration of the batch loop, on the outcome `r` of processing
      item `i`. */
  lemma LoopStep(items: seq<Item>, i: nat, base: nat, stamps: nat -> Stamp,
                 r: Result<Record, ProcessError>)
    requires i < |items|
    requires r == Processed(items[i], stamps(i), base + i + 1)
    ensures Run(items, i + 1, base, stamps).results
            == if r.Ok? then Run(items, i, base, stamps).results + [r.value]
               else Run(items, i, base, stamps).results
    ensures Run(items, i + 1, base, stamps).failed
            == if r.Ok? then Run(items, i, base, stamps).failed
               else Run(items, i, base, stamps).failed + 1
  {
  }

  lemma Associative<X>(a: seq<X>, b: seq<X>, c: seq<X>)
    ensures (a + b) + c == a + (b + c)
  {
  }

  /** One iteration of the loop adds the item's contribution to the results
      and counts it as failed exactly when it is not a mapping. */
  lemma RunStep(items: seq<Item>, n: nat, base: nat, stamps: nat -> Stamp)
    requires 0 < n <= |items|
    ensures Run(items, n, base, stamps).results
            == Run(items, n - 1, base, stamps).results + Contribution(items, n - 1, base, stamps)
    ensures Run(items, n, base, stamps).failed
            == Run(items, n - 1, base, stamps).failed + (if items[n - 1].NonMapping? then 1 else 0)
  {
    if items[n - 1].NonMapping? {
      assert Run(items, n - 1, base, stamps).results + [] == Run(items, n - 1, base, stamps).results;
    }
  }

  /** A batch whose items are all mappings has no failures. */
  lemma {:induction false} AllMappingsNeverFail(items: seq<Item>, from: nat)
    requires from <= |items|
    requires forall i :: from <= i < |items| ==> items[i].Mapping?
    ensures CountFailing(items, from) == 0
    decreases |items| - from
  {
    if from < |items| {
      AllMappingsNeverFail(items, from + 1);
    }
  }

  /** The `processor_count` entry of a record, or 0 when it has none. */
  function CounterOf(r: Record): int
  {
    if "processor_count" in r && r["processor_count"].Int? then r["processor_count"].i else 0
  }

  /** The records carry strictly increasing counter values. */
  predicate CountersIncrease(s: seq<Record>)
  {
    forall j, k :: 0 <= j < k < |s| ==> CounterOf(s[j]) < CounterOf(s[k])
  }

  /** No mapping item brings its own `processor_count` key. */
  predicate NoCounterKey(items: seq<Item>)
  {
    forall i :: 0 <= i < |items| && items[i].Mapping? ==> "processor_count" !in items[i].fields
  }

  /** The record that item `i` contributes carries the counter value
      `base + i + 1`, unless the item brings its own `processor_count`. */
  lemma ContributionCounter(items: seq<Item>, i: nat, base: nat, stamps: nat -> Stamp)
    requires i < |items|
    requires NoCounterKey(items)
    ensures forall r :: r in Contribution(items, i, base, stamps) ==> CounterOf(r) == base + i + 1
  {
    if items[i].Mapping? {
      ResultShape(items[i].fields, stamps(i), base + i + 1);
    }
  }

  /** When no input shadows `processor_count`, every result from position
      `from` on carries a counter value above `base + from`. */
  lemma {:induction false} SuccessCountersAbove(items: seq<Item>, from: nat, base: nat, stamps: nat -> Stamp)
    requires from <= |items|
    requires NoCounterKey(items)
    ensures forall r :: r in Successes(items, from, base, stamps) ==> CounterOf(r) > base + from
    decreases |items| - from
  {
    if from < |items| {
      SuccessCountersAbove(items, from + 1, base, stamps);
      SuccessesStep(items, from, base, stamps);
      ContributionCounter(items, from, base, stamps);
    }
  }

  /** When no input shadows `processor_count`, the results of a batch carry
      strictly increasing counter values. */
  lemma {:induction false} SuccessCountersIncrease(items: seq<Item>, from: nat, base: nat, stamps: nat -> Stamp)
    requires from <= |items|
    requires NoCounterKey(items)
    ensures CountersIncrease(Successes(items, from, base, stamps))
    decreases |items| - from
  {
    if from < |items| {
      SuccessCountersIncrease(items, from + 1, base, stamps);
      SuccessCountersAbove(items, from + 1, base, stamps);
      SuccessesStep(items, from, base, stamps);
      ContributionCounter(items, from, base, stamps);
      PrependKeepsIncrease(Contribution(items, from, base, stamps), Successes(items, from + 1, base, stamps),
                           base + from + 1);
    }
  }

  /** At most one record with counter `bound` in front of records whose
      counters increase from above `bound` keeps the counters increasing. */
  lemma PrependKeepsIncrease(c: seq<Record>, rest: seq<Record>, bound: int)
    requires |c| <= 1
    requires forall r :: r in c ==> CounterOf(r) == bound
    requires forall r :: r in rest ==> CounterOf(r) > bound
    requires CountersIncrease(rest)
    ensures CountersIncrease(c + rest)
  {
    var s := c + rest;
    forall j, k | 0 <= j < k < |s| ensures CounterOf(s[j]) < CounterOf(s[k]) {
      assert s[k] == rest[k - |c|] && s[k] in rest;
      if j < |c| {
        assert s[j] in c;
      } else {
        assert s[j] == rest[j - |c|];
      }
    }
  }

  /** The dict `process_batch` returns; `duration_seconds` is a clock
      reading passed in. */
  datatype BatchReport = BatchReport(processed: nat, failed: nat, total: nat,
                                     durationSeconds: real, results: seq<Record>)

  /** What `process_batch(items, max_items)` returns when the counter stood
      at `base` before the call. */
  function BatchSpec(items: seq<Item>, maxItems: nat, base: nat, stamps: nat -> Stamp,
                     duration: real): (r: BatchReport)
    ensures r.total == |items|
    ensures r.processed == |r.results|
    ensures r.processed + r.failed == Min(|items|, maxItems)
    ensures r.results == Successes(Attempted(items, maxItems), 0, base, stamps)
    ensures r.failed == CountFailing(Attempted(items, maxItems), 0)
    ensures r.durationSeconds == duration
  {
    var attempted := Attempted(items, maxItems);
    var t := Run(attempted, |attempted|, base, stamps);
    RunMatchesSuccesses(attempted, |attempted|, base, stamps);
    RunMatchesFailures(attempted, |attempted|, base, stamps);
    BatchReport(|t.results|, t.failed, |items|, duration, t.results)
  }

  /** A batch of mappings no longer than `max_items` is processed in full:
      every item succeeds and nothing fails. */
  lemma AllMappingsBatch(items: seq<Item>, maxItems: nat, base: nat, stamps: nat -> Stamp, duration: real)
    requires |items| <= maxItems
    requires forall i :: 0 <= i < |items| ==> items[i].Mapping?
    ensures var r := BatchSpec(items, maxItems, base, stamps, duration);
            r.processed == |items| && r.failed == 0 && |r.results| == |items| && r.total == |items|
  {
    AllMappingsNeverFail(Attempted(items, maxItems), 0);
  }

  /** The results of one batch, as long as no attempted item shadows
      `processor_count`, carry strictly increasing counter values, all
      above the counter's value before the batch. */
  lemma BatchCountersIncrease(items: seq<Item>, maxItems: nat, base: nat, stamps: nat -> Stamp, duration: real)
    requires NoCounterKey(Attempted(items, maxItems))
    ensures forall r :: r in BatchSpec(items, maxItems, base, stamps, duration).results ==> CounterOf(r) > base
    ensures CountersIncrease(BatchSpec(items, maxItems, base, stamps, duration).results)
  {
    var attempted := Attempted(items, maxItems);
    SuccessCountersAbove(attempted, 0, base, stamps);
    SuccessCountersIncrease(attempted, 0, base, stamps);
  }

  class DataProcessor {
    /** `processed_count`: calls of `process` so far. */
    var processedCount: nat
    /** The registry whose ERROR_COUNT and PROCESSING_TIME this processor updates. */
    const metrics: Registry

    constructor (metrics: Registry)
      ensures processedCount == 0 && this.metrics == metrics
    {
      processedCount := 0;
      this.metrics := metrics;
    }

    /** `process(data)`: the counter goes up before the merge, so also on the
        call that then fails; the failure is counted as `processing_error`
        and handed back to the caller (the source re-raises). */
    method Process(item: Item, stamp: Stamp) returns (r: Result<Record, ProcessError>)
      modifies this, metrics
      ensures processedCount == old(processedCount) + 1
      ensures r == Processed(item, stamp, old(processedCount) + 1)
      ensures metrics.errors == if r.Err? then Inc(old(metrics.errors), ProcessingError)
                                else old(metrics.errors)
      ensures metrics.processing == Inc(old(metrics.processing), OpSingle)
      ensures metrics.requests == old(metrics.requests) && metrics.latency == old(metrics.latency)
      ensures metrics.active == old(metrics.active)
    {
      processedCount := processedCount + 1;
      r := Processed(item, stamp, processedCount);
      metrics.ObserveProcessing(OpSingle);
      if r.Err? {
        metrics.IncError(ProcessingError);
      }
    }

    /** `process_batch(items, max_items)`: process the first `max_items`
        items one by one inside the batch timer, then report. */
    method ProcessBatch(items: seq<Item>, maxItems: nat, stamps: nat -> Stamp, duration: real)
      returns (report: BatchReport)
      modifies this, metrics
      ensures report == BatchSpec(items, maxItems, old(processedCount), stamps, duration)
      ensures report.processed + report.failed == Min(|items|, maxItems)
      ensures processedCount == old(processedCount) + Min(|items|, maxItems)
      ensures metrics.errors == IncBy(old(metrics.errors), ProcessingError, report.failed)
      ensures metrics.processing
              == Inc(IncBy(old(metrics.processing), OpSingle, Min(|items|, maxItems)), OpBatch)
      ensures metrics.requests == old(metrics.requests) && metrics.latency == old(metrics.latency)
      ensures metrics.active == old(metrics.active)
    {
      var attempted := Attempted(items, maxItems);
      var results, failed := ProcessEach(attempted, stamps);
      metrics.ObserveProcessing(OpBatch);
      report := BatchReport(|results|, failed, |items|, duration, results);
    }

    /** The loop of `process_batch`: a successful item's result is appended,
        a failing one is counted, and the loop goes on either way. */
    method ProcessEach(attempted: seq<Item>, stamps: nat -> Stamp)
      returns (results: seq<Record>, failed: nat)
      modifies this, metrics
      ensures results == Run(attempted, |attempted|, old(processedCount), stamps).results
      ensures failed == Run(attempted, |attempted|, old(processedCount), stamps).failed
      ensures processedCount == old(processedCount) + |attempted|
      ensures metrics.errors == IncBy(old(metrics.errors), ProcessingError, failed)
      ensures metrics.processing == IncBy(old(metrics.processing), OpSingle, |attempted|)
      ensures metrics.requests == old(metrics.requests) && metrics.latency == old(metrics.latency)
      ensures metrics.active == old(metrics.active)
    {
      ghost var base := processedCount;
      ghost var errors0 := metrics.errors;
      ghost var processing0 := metrics.processing;
      results, failed := [], 0;
      var i := 0;
      while i < |attempted|
        invariant 0 <= i <= |attempted|
        invariant Run(attempted, i, base, stamps).results == results
        invariant Run(attempted, i, base, stamps).failed == failed
        invariant processedCount == base + i
        invariant metrics.errors == IncBy(errors0, ProcessingError, failed)
        invariant metrics.processing == IncBy(processing0, OpSingle, i)
        invariant metrics.requests == old(metrics.requests) && metrics.latency == old(metrics.latency)
        invariant metrics.active == old(metrics.active)
      {
        results, failed := Absorb(attempted, i, base, stamps, results, failed, errors0, processing0);
        i := i + 1;
      }
    }

    /** The body of the batch loop for item `i`: process it and append
        its result, or count it as failed. */
    method Absorb(attempted: seq<Item>, i: nat, ghost base: nat, stamps: nat -> Stamp,
                  results: seq<Record>, failed: nat,
                  ghost errors0: map<string, nat>, ghost processing0: map<string, nat>)
      returns (results': seq<Record>, failed': nat)
      requires i < |attempted|
      requires Run(attempted, i, base, stamps).results == results
      requires Run(attempted, i, base, stamps).failed == failed
      requires processedCount == base + i
      requires metrics.errors == IncBy(errors0, ProcessingError, failed)
      requires metrics.processing == IncBy(processing0, OpSingle, i)
      modifies this, metrics
      ensures Run(attempted, i + 1, base, stamps).results == results'
      ensures Run(attempted, i + 1, base, stamps).failed == failed'
      ensures processedCount == base + i + 1
      ensures metrics.errors == IncBy(errors0, ProcessingError, failed')
      ensures metrics.processing == IncBy(processing0, OpSingle, i + 1)
      ensures metrics.requests == old(metrics.requests) && metrics.latency == old(metrics.latency)
      ensures metrics.active == old(metrics.active)
    {
      var r := Process(attempted[i], stamps(i));
      LoopStep(attempted, i, base, stamps, r);
      IncByStep(processing0, OpSingle, i);
      IncByStep(errors0, ProcessingError, failed);
      if r.Ok? {
        results', failed' := results + [r.value], failed;
      } else {
        results', failed' := results, failed + 1;
      }
    }
  }
}
