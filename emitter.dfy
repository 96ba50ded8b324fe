/** The buffered emitter: it accumulates event payloads, decides when to
    flush, sends a flushed batch to the collector and reports which events
    were sent and which were not.

    The network and the callbacks are outside the model's reach. Each flush
    is given `network`, the response to its `i`-th request, and `clock`, the
    whole-second clock reading taken when stamping its `i`-th event. What the
    emitter sends and which callbacks it invokes are recorded in the
    emitter's `requests` and `notifications`. */
module Emitters {
  import opened Wrappers
  import opened Payloads
  import opened Collector
  import opened Partition

  const DEFAULT_MAX_LENGTH := 10
  const PROTOCOLS: set<string> := {"http", "https"}
  const METHODS: set<string> := {"get", "post"}

  datatype Method = Get | Post

  /** `__init__` raises `ValueError` for each of these. */
  datatype ConfigError = InvalidProtocol | InvalidMethod | MissingEndpoint

  /** The settings an emitter keeps after construction. `onSuccess` and
      `onFailure` say whether the callback is registered. */
  datatype Config = Config(
    endpoint: string,
    httpMethod: Method,
    bufferSize: int,
    byteLimit: Option<int>,
    onSuccess: bool,
    onFailure: bool)

  /** The checks and the derived settings of `__init__`: protocol and method
      must be known, the endpoint non-empty; a missing buffer size defaults
      to 10 for POST and 1 for GET. */
  function Configure(host: string, protocol: string, port: Option<int>, httpMethod: string,
                     bufferSize: Option<int>, byteLimit: Option<int>,
                     onSuccess: bool, onFailure: bool): (r: Result<Config, ConfigError>)
    ensures protocol !in PROTOCOLS ==> r == Failure(InvalidProtocol)
    ensures protocol in PROTOCOLS && httpMethod !in METHODS ==> r == Failure(InvalidMethod)
    ensures protocol in PROTOCOLS && httpMethod in METHODS ==>
      && (r.Success? <==> host != "")
      && (r.Failure? ==> r.error == MissingEndpoint)
    ensures r.Success? ==>
      && AsCollectorUri(host, protocol, port, httpMethod) == Success(r.value.endpoint)
      && (r.value.httpMethod == Post <==> httpMethod == "post")
      && (r.value.httpMethod == Get <==> httpMethod == "get")
      && (bufferSize.Some? ==> r.value.bufferSize == bufferSize.value)
      && (bufferSize.None? && httpMethod == "post" ==> r.value.bufferSize == DEFAULT_MAX_LENGTH)
      && (bufferSize.None? && httpMethod == "get" ==> r.value.bufferSize == 1)
      && r.value.byteLimit == byteLimit
      && r.value.onSuccess == onSuccess && r.value.onFailure == onFailure
  {
    if protocol !in PROTOCOLS then Failure(InvalidProtocol)
    else if httpMethod !in METHODS then Failure(InvalidMethod)
    else match AsCollectorUri(host, protocol, port, httpMethod)
      case Failure(_) => Failure(MissingEndpoint)
      case Success(uri) =>
        var size := match bufferSize
          case Some(n) => n
          case None => if httpMethod == "post" then DEFAULT_MAX_LENGTH else 1;
        Success(Config(uri, if httpMethod == "post" then Post else Get, size, byteLimit, onSuccess, onFailure))
  }

  /** What `input` stores for a payload: in POST mode every value is
      stringified, in GET mode the payload is kept as it is. */
  function Prepare(m: Method, p: Payload): (q: Payload)
    ensures q.Keys == p.Keys
    ensures m == Get ==> q == p
    ensures m == Post ==> forall k :: k in q ==> q[k].Str?
  {
    if m == Post then Stringify(p) else p
  }

  function PrepareAll(m: Method, ps: seq<Payload>): (r: seq<Payload>)
    ensures |r| == |ps|
    ensures forall i :: 0 <= i < |ps| ==> r[i] == Prepare(m, ps[i])
  {
    seq(|ps|, i requires 0 <= i < |ps| => Prepare(m, ps[i]))
  }

  /** The sum of the sizes `measure` gives the payloads. */
  function TotalSize(measure: Payload -> nat, ps: seq<Payload>): nat {
    if ps == [] then 0 else TotalSize(measure, ps[..|ps| - 1]) + measure(ps[|ps| - 1])
  }

  /** `bytes_queued += n`, when the count is kept at all. */
  function Grow(queued: Option<nat>, n: nat): Option<nat> {
    match queued
    case None => None
    case Some(b) => Some(b + n)
  }

  /** The byte count after a flush: 0 when it is kept, still absent when not. */
  function Reset(queued: Option<nat>): Option<nat> {
    match queued
    case None => None
    case Some(_) => Some(0)
  }

  /** `reached_limit` on a buffer of `count` events. Python's
      `(self.bytes_queued or 0)` reads an absent count as 0. */
  function LimitReached(count: nat, bufferSize: int, byteLimit: Option<int>, bytesQueued: Option<nat>): (reached: bool)
    ensures count >= bufferSize ==> reached
    ensures byteLimit.None? ==> (reached <==> count >= bufferSize)
    ensures byteLimit.Some? && bytesQueued.Some? && bytesQueued.value >= byteLimit.value ==> reached
    ensures reached ==> count >= bufferSize || (byteLimit.Some? && (if bytesQueued.Some? then bytesQueued.value else 0) >= byteLimit.value)
  {
    match byteLimit
    case None => count >= bufferSize
    case Some(limit) =>
      (match bytesQueued case Some(b) => b case None => 0) >= limit || count >= bufferSize
  }

  /** A callback invocation: `on_success(sent)` or `on_failure(sent_count, unsent)`. */
  datatype Notification =
    | SuccessCall(sent: seq<Payload>)
    | FailureCall(sentCount: nat, unsent: seq<Payload>)

  /** What one `send_events` call does: the events sent and not sent, the
      requests issued and the callbacks invoked, in order. */
  datatype Outcome = Outcome(
    success: seq<Payload>,
    failure: seq<Payload>,
    requests: seq<Request>,
    notifications: seq<Notification>)

  /** Whether each event of a batch of `n` was delivered: in POST mode the
      one request decides for all, in GET mode event `i` has request `i`. */
  function Verdicts(m: Method, n: nat, network: nat -> Response): (flags: seq<bool>)
    ensures |flags| == n
  {
    seq(n, i requires 0 <= i < n => Delivered(network(if m == Post then 0 else i)))
  }

  /** The requests for a non-empty stamped batch: one POST with the whole
      batch, or one GET per event in batch order. */
  function RequestsFor(endpoint: string, m: Method, batch: seq<Payload>): seq<Request> {
    if m == Post then [PostRequest(endpoint, PAYLOAD_DATA_SCHEMA, batch)]
    else seq(|batch|, i requires 0 <= i < |batch| => GetRequest(endpoint, batch[i]))
  }

  /** The callback routing at the end of `send_events`. */
  function Notify(onSuccess: bool, onFailure: bool, success: seq<Payload>, failure: seq<Payload>): (calls: seq<Notification>)
    ensures |calls| == (if onSuccess && |success| > 0 then 1 else 0) + (if onFailure && |failure| > 0 then 1 else 0)
    ensures forall n :: n in calls ==> n == SuccessCall(success) || n == FailureCall(|success|, failure)
  {
    (if onSuccess && |success| > 0 then [SuccessCall(success)] else [])
    + (if onFailure && |failure| > 0 then [FailureCall(|success|, failure)] else [])
  }

  /** What `send_events` does with a non-empty stamped batch: issue the
      requests, split the batch by their responses, route the two lists. */
  function Dispatch(config: Config, batch: seq<Payload>, network: nat -> Response): Outcome {
    var flags := Verdicts(config.httpMethod, |batch|, network);
    var success := Select(batch, flags, true);
    var failure := Select(batch, flags, false);
    Outcome(success, failure, RequestsFor(config.endpoint, config.httpMethod, batch),
            Notify(config.onSuccess, config.onFailure, success, failure))
  }

  /** `send_events` as a function of the batch and of the outside world: an
      empty batch does nothing, any other is stamped and dispatched. */
  function SendSpec(config: Config, evts: seq<Payload>, clock: nat -> nat, network: nat -> Response): Outcome {
    if |evts| == 0 then Outcome([], [], [], [])
    else Dispatch(config, StampAll(evts, clock), network)
  }

  class Emitter {
    const config: Config
    /** Python's `len(str(payload))`, the size `input` adds to `bytes_queued`. */
    const measure: Payload -> nat

    var buffer: seq<Payload>
    var bytesQueued: Option<nat>
    /** Every request sent to the collector, in order. */
    var requests: seq<Request>
    /** Every callback invocation, in order. */
    var notifications: seq<Notification>
    /** The payloads as given to `input` since the last flush. */
    ghost var pending: seq<Payload>

    /** The byte count is kept exactly when a byte limit is set, and then it
        is the size of the payloads queued since the last flush, measured as
        given; the buffer holds those payloads as `input` stores them. */
    ghost predicate Valid()
      reads this
    {
      && (bytesQueued.None? <==> config.byteLimit.None?)
      && buffer == PrepareAll(config.httpMethod, pending)
      && (bytesQueued.Some? ==> bytesQueued.value == TotalSize(measure, pending))
    }

    /** The state part of `__init__`: an empty buffer, and a byte count of 0
        exactly when a byte limit is set. */
    constructor (config: Config, measure: Payload -> nat)
      ensures Valid()
      ensures this.config == config && this.measure == measure
      ensures buffer == [] && pending == []
      ensures bytesQueued == if config.byteLimit.None? then None else Some(0)
      ensures requests == [] && notifications == []
    {
      this.config := config;
      this.measure := measure;
      buffer := [];
      bytesQueued := if config.byteLimit.None? then None else Some(0);
      requests := [];
      notifications := [];
      pending := [];
    }

    /** `reached_limit`. */
    predicate ReachedLimit()
      reads this
      ensures |buffer| >= config.bufferSize ==> ReachedLimit()
      ensures config.byteLimit.None? && ReachedLimit() ==> |buffer| >= config.bufferSize
      ensures config.byteLimit.Some? && bytesQueued.Some? && bytesQueued.value >= config.byteLimit.value ==> ReachedLimit()
    {
      LimitReached(|buffer|, config.bufferSize, config.byteLimit, bytesQueued)
    }

    /** `input`: queue one payload, and flush when the limit is reached. */
    method Input(payload: Payload, clock: nat -> nat, network: nat -> Response)
      requires Valid()
      modifies this
      ensures Valid()
      ensures var queued := old(buffer) + [Prepare(config.httpMethod, payload)];
              var counted := Grow(old(bytesQueued), measure(payload));
              if LimitReached(|queued|, config.bufferSize, config.byteLimit, counted) then
                var out := SendSpec(config, queued, clock, network);
                && buffer == [] && pending == []
                && bytesQueued == Reset(counted)
                && requests == old(requests) + out.requests
                && notifications == old(notifications) + out.notifications
              else
                && buffer == queued && pending == old(pending) + [payload]
                && bytesQueued == counted
                && requests == old(requests)
                && notifications == old(notifications)
    {
      if bytesQueued.Some? {
        bytesQueued := Some(bytesQueued.value + measure(payload));
      }
      buffer := buffer + [Prepare(config.httpMethod, payload)];
      TotalSizeSnoc(measure, pending, payload);
      pending := pending + [payload];
      if ReachedLimit() {
        FlushUnsafe(clock, network);
      }
    }

    /** `flush`: the lock is not modelled, so this is `_flush_unsafe`. */
    method Flush(clock: nat -> nat, network: nat -> Response)
      requires Valid()
      modifies this
      ensures Valid()
      ensures buffer == [] && pending == [] && bytesQueued == Reset(old(bytesQueued))
      ensures var out := SendSpec(config, old(buffer), clock, network);
              && requests == old(requests) + out.requests
              && notifications == old(notifications) + out.notifications
    {
      FlushUnsafe(clock, network);
    }

    /** `_flush_unsafe`: send the buffer, then empty it and reset the byte
        count. An empty buffer sends nothing and notifies no one. */
    method FlushUnsafe(clock: nat -> nat, network: nat -> Response)
      requires Valid()
      modifies this
      ensures Valid()
      ensures buffer == [] && pending == [] && bytesQueued == Reset(old(bytesQueued))
      ensures var out := SendSpec(config, old(buffer), clock, network);
              && requests == old(requests) + out.requests
              && notifications == old(notifications) + out.notifications
      ensures old(buffer) == [] ==> requests == old(requests) && notifications == old(notifications)
    {
      var out := SendEvents(buffer, clock, network);
      requests := requests + out.requests;
      notifications := notifications + out.notifications;
      buffer := [];
      if bytesQueued.Some? {
        bytesQueued := Some(0);
      }
      pending := [];
    }

    /** `send_events`: stamp the batch, then dispatch it. An empty batch
        sends nothing and notifies no one. */
    method SendEvents(evts: seq<Payload>, clock: nat -> nat, network: nat -> Response) returns (out: Outcome)
      ensures out == SendSpec(config, evts, clock, network)
      ensures |evts| == 0 ==> out.requests == [] && out.notifications == []
    {
      if |evts| == 0 {
        return Outcome([], [], [], []);
      }
      var batch := AttachSentTimestamp(evts, clock);
      out := SendStamped(batch, network);
    }

    /** The rest of `send_events` for a stamped batch: issue the requests,
        split the batch into sent and unsent events, and invoke the
        registered callbacks, `on_success` first. */
    method SendStamped(batch: seq<Payload>, network: nat -> Response) returns (out: Outcome)
      ensures out == Dispatch(config, batch, network)
    {
      var success, failure, sent;
      if config.httpMethod == Post {
        success, failure, sent := PostBatch(batch, network);
      } else {
        success, failure, sent := GetEach(batch, network);
      }
      ghost var flags := Verdicts(config.httpMethod, |batch|, network);
      assert success == Select(batch, flags, true) && failure == Select(batch, flags, false);
      assert sent == RequestsFor(config.endpoint, config.httpMethod, batch);
      var calls: seq<Notification> := [];
      if config.onSuccess && |success| > 0 {
        calls := calls + [SuccessCall(success)];
      }
      if config.onFailure && |failure| > 0 {
        calls := calls + [FailureCall(|success|, failure)];
      }
      assert calls == Notify(config.onSuccess, config.onFailure, success, failure);
      out := Outcome(success, failure, sent, calls);
    }

    /** The POST branch of `send_events`: one request, whose response decides
        for the whole batch. */
    method PostBatch(batch: seq<Payload>, network: nat -> Response)
      returns (success: seq<Payload>, failure: seq<Payload>, sent: seq<Request>)
      requires config.httpMethod == Post
      ensures success == Select(batch, Verdicts(Post, |batch|, network), true)
      ensures failure == Select(batch, Verdicts(Post, |batch|, network), false)
      ensures sent == RequestsFor(config.endpoint, Post, batch)
    {
      sent := [PostRequest(config.endpoint, PAYLOAD_DATA_SCHEMA, batch)];
      var delivered := Delivered(network(0));
      SelectUniform(batch, Verdicts(Post, |batch|, network), delivered, |batch|);
      assert batch[..|batch|] == batch;
      if delivered {
        success, failure := batch, [];
      } else {
        success, failure := [], batch;
      }
    }

    /** The GET branch of `send_events`: one request per event, in batch
        order, each event sent or not on its own response, no early exit. */
    method GetEach(batch: seq<Payload>, network: nat -> Response)
      returns (success: seq<Payload>, failure: seq<Payload>, sent: seq<Request>)
      requires config.httpMethod == Get
      ensures success == Select(batch, Verdicts(Get, |batch|, network), true)
      ensures failure == Select(batch, Verdicts(Get, |batch|, network), false)
      ensures sent == RequestsFor(config.endpoint, Get, batch)
    {
      ghost var flags := Verdicts(Get, |batch|, network);
      success, failure, sent := [], [], [];
      var i := 0;
      while i < |batch|
        invariant 0 <= i <= |batch|
        invariant sent == RequestsFor(config.endpoint, Get, batch[..i])
        invariant success == SelectUpTo(batch, flags, true, i)
        invariant failure == SelectUpTo(batch, flags, false, i)
      {
        var delivered := Delivered(network(i));
        assert flags[i] == delivered;
        SelectUpToStep(batch, flags, i);
        GetRequestsSnoc(config.endpoint, batch, i);
        sent := sent + [GetRequest(config.endpoint, batch[i])];
        assert sent == RequestsFor(config.endpoint, Get, batch[..i + 1]);
        if delivered {
          success := success + [batch[i]];
        } else {
          failure := failure + [batch[i]];
        }
        assert success == SelectUpTo(batch, flags, true, i + 1);
        assert failure == SelectUpTo(batch, flags, false, i + 1);
        i := i + 1;
      }
      assert batch[..i] == batch;
    }
  }

  /** One more GET request per event of a longer prefix. */
  lemma GetRequestsSnoc(endpoint: string, batch: seq<Payload>, i: nat)
    requires i < |batch|
    ensures RequestsFor(endpoint, Get, batch[..i + 1]) == RequestsFor(endpoint, Get, batch[..i]) + [GetRequest(endpoint, batch[i])]
  {
    var longer := RequestsFor(endpoint, Get, batch[..i + 1]);
    var shorter := RequestsFor(endpoint, Get, batch[..i]);
    assert |longer| == |shorter| + 1;
    forall j | 0 <= j < |longer|
      ensures longer[j] == (shorter + [GetRequest(endpoint, batch[i])])[j]
    {
    }
  }

  lemma TotalSizeSnoc(measure: Payload -> nat, ps: seq<Payload>, p: Payload)
    ensures TotalSize(measure, ps + [p]) == TotalSize(measure, ps) + measure(p)
  {
    assert (ps + [p])[..|ps|] == ps;
  }
}
