/** The scenarios of the repository's unit tests, and the metadata
    collision, stated on the model. */
module Scenarios {
  import opened Wrappers
  import opened Json
  import opened Metrics
  import opened Processor
  import opened Routes

  /** Posting {"input": "test data", "value": 123} answers 200 with status
      "success", a processing time, and the input echoed back. */
  lemma ProcessEchoesInput(stamp: Stamp, count: nat)
    ensures var data := map["input" := Str("test data"), "value" := Int(123)];
            var r := SingleRoute(Parsed(Obj(data)), stamp, count);
            && r.status == 200 && r.errorLabels == [] && r.result.Some?
            && r.result.value["status"] == Str("success")
            && "processing_time_ms" in r.result.value
            && r.result.value["input"] == Str("test data")
            && r.result.value["value"] == Int(123)
  {
    var data := map["input" := Str("test data"), "value" := Int(123)];
    assert "input" in data;
    ResultShape(data, stamp, count + 1);
  }

  /** A POST without a body answers 400 and counts `invalid_request`. */
  lemma EmptyPostRefused(stamp: Stamp, count: nat)
    ensures SingleRoute(Absent, stamp, count) == SingleReply(400, None, [InvalidRequest])
  {
  }

  /** The three-item batch of the route test is dispatched and processed in
      full. */
  lemma BatchOfThree(base: nat, stamps: nat -> Stamp, duration: real)
    ensures var elems := [Obj(map["id" := Int(1), "value" := Str("test1")]),
                          Obj(map["id" := Int(2), "value" := Str("test2")]),
                          Obj(map["id" := Int(3), "value" := Str("test3")])];
            var step := BatchRoute(Parsed(Obj(map["items" := List(elems)])));
            && step.Dispatch?
            && var r := BatchSpec(step.items, DefaultMaxItems, base, stamps, duration);
            && r.processed == 3 && r.failed == 0 && |r.results| == 3 && r.total == 3
  {
    var elems := [Obj(map["id" := Int(1), "value" := Str("test1")]),
                  Obj(map["id" := Int(2), "value" := Str("test2")]),
                  Obj(map["id" := Int(3), "value" := Str("test3")])];
    var step := BatchRoute(Parsed(Obj(map["items" := List(elems)])));
    assert "items" in map["items" := List(elems)];
    AllMappingsBatch(step.items, DefaultMaxItems, base, stamps, duration);
  }

  /** Posting {} to the batch route answers 400: the body is falsy. */
  lemma EmptyBatchRefused()
    ensures BatchRoute(Parsed(Obj(map[]))) == Reject
  {
  }

  /** `process({'test': 'data'})` succeeds and keeps the input entry. */
  lemma ProcessorKeepsEntry(stamp: Stamp, count: nat)
    ensures var r := Processed(Mapping(map["test" := Str("data")]), stamp, count);
            && r.Ok?
            && r.value["status"] == Str("success")
            && r.value["test"] == Str("data")
            && "processing_time_ms" in r.value
  {
    ResultShape(map["test" := Str("data")], stamp, count);
  }

  /** `process_batch([{'id': i} for i in range(5)])` processes all five. */
  lemma ProcessorBatchOfFive(base: nat, stamps: nat -> Stamp, duration: real)
    ensures var items := seq(5, i => Mapping(map["id" := Int(i)]));
            var r := BatchSpec(items, DefaultMaxItems, base, stamps, duration);
            r.processed == 5 && r.failed == 0 && |r.results| == 5
  {
    var items := seq(5, i => Mapping(map["id" := Int(i)]));
    AllMappingsBatch(items, DefaultMaxItems, base, stamps, duration);
  }

  /** An input field named `status` overwrites the pipeline's own status,
      because `**data` is spread after the metadata. */
  lemma InputOverridesStatus(stamp: Stamp, count: nat)
    ensures var r := Processed(Mapping(map["status" := Str("failed")]), stamp, count);
            r.Ok? && r.value["status"] == Str("failed")
  {
    ResultShape(map["status" := Str("failed")], stamp, count);
  }
}
