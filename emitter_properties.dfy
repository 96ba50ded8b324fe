/** What the emitter promises, stated over its specification functions. */
module EmitterProperties {
  import opened Wrappers
  import opened Decimal
  import opened Payloads
  import opened Collector
  import opened Partition
  import opened Emitters

  /** A flushed batch is split into an order-preserving partition: every
      stamped event ends up on exactly one side, and merging the two sides
      along the verdicts gives the stamped batch back. */
  lemma OutcomePartitionsBatch(config: Config, batch: seq<Payload>, network: nat -> Response)
    ensures var out := Dispatch(config, batch, network);
            var flags := Verdicts(config.httpMethod, |batch|, network);
            && |out.success| == Count(flags, true) && |out.failure| == Count(flags, false)
            && |out.success| + |out.failure| == |batch|
            && multiset(out.success) + multiset(out.failure) == multiset(batch)
            && Merge(flags, out.success, out.failure) == batch
  {
    var flags := Verdicts(config.httpMethod, |batch|, network);
    CountSplit(flags, |flags|);
    SelectMultiset(batch, flags, |batch|);
    assert batch[..|batch|] == batch;
    MergeSelect(batch, flags);
  }

  /** POST is all-or-nothing: one request carries the whole batch, and its
      response sends every event or none. */
  lemma PostAllOrNothing(config: Config, batch: seq<Payload>, network: nat -> Response)
    requires config.httpMethod == Post && |batch| > 0
    ensures var out := Dispatch(config, batch, network);
            && out.requests == [PostRequest(config.endpoint, PAYLOAD_DATA_SCHEMA, batch)]
            && (Delivered(network(0)) ==> out.success == batch && out.failure == [])
            && (!Delivered(network(0)) ==> out.success == [] && out.failure == batch)
  {
    SelectUniform(batch, Verdicts(Post, |batch|, network), Delivered(network(0)), |batch|);
    assert batch[..|batch|] == batch;
  }

  /** A delivered POST batch reaches `on_success` whole; a failed one reaches
      `on_failure` as `(0, batch)`; nothing else is invoked. */
  lemma PostNotifications(config: Config, batch: seq<Payload>, network: nat -> Response)
    requires config.httpMethod == Post && |batch| > 0
    ensures var out := Dispatch(config, batch, network);
            && (Delivered(network(0)) ==>
                  out.notifications == if config.onSuccess then [SuccessCall(batch)] else [])
            && (!Delivered(network(0)) ==>
                  out.notifications == if config.onFailure then [FailureCall(0, batch)] else [])
  {
    PostAllOrNothing(config, batch, network);
  }

  /** GET sends one request per event, all of them and in batch order, and
      event `i` is sent exactly when the response to request `i` is good:
      the events are classified one by one, and a failure stops nothing. */
  lemma GetPerEvent(config: Config, batch: seq<Payload>, network: nat -> Response)
    requires config.httpMethod == Get
    ensures var out := Dispatch(config, batch, network);
            && |out.requests| == |batch|
            && (forall i :: 0 <= i < |batch| ==> out.requests[i] == GetRequest(config.endpoint, batch[i]))
            && (forall i :: 0 <= i < |batch| && Delivered(network(i)) ==> batch[i] in out.success)
            && (forall i :: 0 <= i < |batch| && !Delivered(network(i)) ==> batch[i] in out.failure)
  {
    var flags := Verdicts(Get, |batch|, network);
    forall i | 0 <= i < |batch|
      ensures flags[i] ==> batch[i] in Select(batch, flags, true)
      ensures !flags[i] ==> batch[i] in Select(batch, flags, false)
    {
      SelectContains(batch, flags, i);
    }
  }

  /** When every GET request gets the same verdict, the whole batch lands on
      that verdict's side and nothing on the other. */
  lemma GetUniformSides(config: Config, batch: seq<Payload>, network: nat -> Response, verdict: bool)
    requires config.httpMethod == Get
    requires forall i :: 0 <= i < |batch| ==> Delivered(network(i)) == verdict
    ensures var out := Dispatch(config, batch, network);
            && (verdict ==> out.success == batch && out.failure == [])
            && (!verdict ==> out.success == [] && out.failure == batch)
  {
    var flags := Verdicts(Get, |batch|, network);
    forall i | 0 <= i < |flags|
      ensures flags[i] == verdict
    {
      assert flags[i] == Delivered(network(i));
    }
    SelectUniform(batch, flags, verdict, |batch|);
    assert batch[..|batch|] == batch;
  }

  /** With both callbacks registered, a non-empty GET batch whose requests
      all get the same verdict invokes one callback with the whole batch:
      `on_success(batch)` when all are delivered, `on_failure(0, batch)`
      when none is. */
  lemma GetUniformResponses(config: Config, batch: seq<Payload>, network: nat -> Response, verdict: bool)
    requires config.httpMethod == Get && config.onSuccess && config.onFailure && |batch| > 0
    requires forall i :: 0 <= i < |batch| ==> Delivered(network(i)) == verdict
    ensures var out := Dispatch(config, batch, network);
            && (verdict ==> out.notifications == [SuccessCall(batch)])
            && (!verdict ==> out.notifications == [FailureCall(0, batch)])
  {
    GetUniformSides(config, batch, network, verdict);
    var out := Dispatch(config, batch, network);
    if verdict {
      assert out.notifications == Notify(true, true, batch, []);
    } else {
      assert out.notifications == Notify(true, true, [], batch);
    }
  }

  /** In GET mode every sent event is one whose own request was delivered,
      and every unsent event one whose request was not. */
  lemma GetSidesMatchResponses(config: Config, batch: seq<Payload>, network: nat -> Response)
    requires config.httpMethod == Get
    ensures var out := Dispatch(config, batch, network);
            && (forall x :: x in out.success ==> exists i :: 0 <= i < |batch| && x == batch[i] && Delivered(network(i)))
            && (forall x :: x in out.failure ==> exists i :: 0 <= i < |batch| && x == batch[i] && !Delivered(network(i)))
  {
    var flags := Verdicts(Get, |batch|, network);
    forall x | x in Select(batch, flags, true)
      ensures exists i :: 0 <= i < |batch| && x == batch[i] && flags[i]
    {
      SelectOrigin(batch, flags, true, |batch|, x);
    }
    forall x | x in Select(batch, flags, false)
      ensures exists i :: 0 <= i < |batch| && x == batch[i] && !flags[i]
    {
      SelectOrigin(batch, flags, false, |batch|, x);
    }
  }

  /** `on_success` receives the sent events, only when there are some and it
      is registered, and comes first; `on_failure` receives the number of
      sent events and the list of unsent events, only when there are some
      and it is registered. Nothing else is invoked. */
  lemma NotificationRouting(onSuccess: bool, onFailure: bool, success: seq<Payload>, failure: seq<Payload>)
    ensures var calls := Notify(onSuccess, onFailure, success, failure);
            && (SuccessCall(success) in calls <==> onSuccess && |success| > 0)
            && (FailureCall(|success|, failure) in calls <==> onFailure && |failure| > 0)
            && (forall n :: n in calls && n.SuccessCall? ==> n == SuccessCall(success))
            && (forall n :: n in calls && n.FailureCall? ==> n == FailureCall(|success|, failure))
            && (|calls| == 2 ==> calls[0].SuccessCall?)
            && |calls| == (if onSuccess && |success| > 0 then 1 else 0) + (if onFailure && |failure| > 0 then 1 else 0)
  {
  }

  /** `reached_limit` only turns true as the buffer or the byte count grows. */
  lemma LimitReachedMonotone(count1: nat, count2: nat, bufferSize: int, byteLimit: Option<int>,
                             queued1: Option<nat>, queued2: Option<nat>)
    requires count1 <= count2
    requires queued1.Some? <==> queued2.Some?
    requires queued1.Some? ==> queued1.value <= queued2.value
    requires LimitReached(count1, bufferSize, byteLimit, queued1)
    ensures LimitReached(count2, bufferSize, byteLimit, queued2)
  {
  }

  /** With a byte limit, reaching it is enough, whatever the event count;
      without one, only the event count matters. */
  lemma LimitReachedCases(count: nat, bufferSize: int, limit: int, queued: nat, other: Option<nat>)
    ensures queued >= limit ==> LimitReached(count, bufferSize, Some(limit), Some(queued))
    ensures LimitReached(count, bufferSize, Some(limit), Some(queued)) && count < bufferSize ==> queued >= limit
    ensures LimitReached(count, bufferSize, None, other) <==> count >= bufferSize
  {
  }

  /** `Emitter('0.0.0.0')`: endpoint `http://0.0.0.0/i`, GET, buffer size 1,
      no byte limit, no callbacks. */
  lemma DefaultConfiguration()
    ensures Configure("0.0.0.0", "http", None, "get", None, None, false, false)
            == Success(Config("http://0.0.0.0/i", Get, 1, None, false, false))
    ensures Configure("0.0.0.0", "http", None, "post", None, None, false, false).value.bufferSize == 10
    ensures Configure("", "http", None, "get", None, None, false, false) == Failure(MissingEndpoint)
  {
    assert "http" + "://" == "http://";
    assert "http://" + "0.0.0.0" == "http://0.0.0.0";
    assert "http://0.0.0.0" + "" == "http://0.0.0.0";
    assert "http://0.0.0.0" + GET_PATH == "http://0.0.0.0/i";
  }

  /** A clock frozen at 2021-04-14 00:00:02 UTC stamps `1618358402000`. */
  lemma StmExample()
    ensures StmValue(1618358402) == Str("1618358402000")
  {
    assert NatToString(1) == "1";
    assert NatToString(16) == "16";
    assert NatToString(161) == "161";
    assert NatToString(1618) == "1618";
    assert NatToString(16183) == "16183";
    assert NatToString(161835) == "161835";
    assert NatToString(1618358) == "1618358";
    assert NatToString(16183584) == "16183584";
    assert NatToString(161835840) == "161835840";
    assert NatToString(1618358402) == "1618358402";
    assert NatToString(16183584020) == "16183584020";
    assert NatToString(161835840200) == "161835840200";
    assert NatToString(1618358402000) == "1618358402000";
  }

  /** A two-event GET batch whose first request succeeds and whose second
      gets a 500: `on_success([e1])`, then `on_failure(1, [e2])`. */
  lemma GetPartialFailureExample(config: Config, e1: Payload, e2: Payload, network: nat -> Response)
    requires config.httpMethod == Get && config.onSuccess && config.onFailure
    requires network(0) == Status(200) && network(1) == Status(500)
    ensures Dispatch(config, [e1, e2], network).notifications == [SuccessCall([e1]), FailureCall(1, [e2])]
  {
    var batch := [e1, e2];
    var flags := Verdicts(Get, 2, network);
    assert flags[0] == Delivered(network(0)) && flags[1] == Delivered(network(1));
    assert Delivered(Status(200)) && !Delivered(Status(500));
    assert SelectUpTo(batch, flags, true, 1) == [e1] && SelectUpTo(batch, flags, false, 1) == [];
    assert Select(batch, flags, true) == [e1];
    assert Select(batch, flags, false) == [e2];
  }

  /** Two inputs into an emitter with buffer size 2 and a 256-byte limit,
      on events of 10 bytes each: the first only queues, the second flushes
      once (two GET requests), leaving the buffer empty and the count at 0. */
  method TwoInputsFlushOnce(e: Payload, clock: nat -> nat, network: nat -> Response)
    returns (emitter: Emitter)
    ensures emitter.buffer == [] && emitter.bytesQueued == Some(0)
    ensures |emitter.requests| == 2
    ensures emitter.requests == RequestsFor(emitter.config.endpoint, Get, StampAll([e, e], clock))
    ensures emitter.notifications == []
  {
    var config := Configure("0.0.0.0", "http", None, "get", Some(2), Some(256), false, false).value;
    assert config.httpMethod == Get && config.bufferSize == 2 && config.byteLimit == Some(256);
    assert !config.onSuccess && !config.onFailure;
    emitter := new Emitter(config, (p: Payload) => 10);
    emitter.Input(e, clock, network);
    assert emitter.buffer == [e] && emitter.bytesQueued == Some(10) && emitter.requests == [];
    SecondInputFlushes(emitter, e, clock, network);
  }

  /** The second input of that example: it fills the buffer, so one flush
      sends both queued events and leaves nothing behind. */
  method SecondInputFlushes(emitter: Emitter, e: Payload, clock: nat -> nat, network: nat -> Response)
    requires emitter.Valid()
    requires emitter.config.httpMethod == Get && emitter.config.bufferSize == 2
    requires emitter.config.byteLimit == Some(256) && emitter.measure(e) == 10
    requires !emitter.config.onSuccess && !emitter.config.onFailure
    requires emitter.buffer == [e] && emitter.bytesQueued == Some(10)
    requires emitter.requests == [] && emitter.notifications == []
    modifies emitter
    ensures emitter.buffer == [] && emitter.bytesQueued == Some(0)
    ensures emitter.requests == RequestsFor(emitter.config.endpoint, Get, StampAll([e, e], clock))
    ensures emitter.notifications == []
  {
    assert [e] + [Prepare(Get, e)] == [e, e];
    assert LimitReached(2, 2, Some(256), Grow(Some(10), 10));
    emitter.Input(e, clock, network);
    ghost var out := SendSpec(emitter.config, [e, e], clock, network);
    assert out.requests == RequestsFor(emitter.config.endpoint, Get, StampAll([e, e], clock));
    assert out.notifications == Notify(false, false, out.success, out.failure) == [];
  }
}
