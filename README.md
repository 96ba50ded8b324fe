# Buffered Snowplow emitter, modelled in Dafny

This project models the `Emitter` of the asyncio Snowplow Python tracker
(`aio_snowplow_tracker/emitters.py`). The emitter accumulates event payloads,
decides when to flush, stamps each flushed event with a send time (`stm`),
sends the batch to a Snowplow collector, splits it into sent and unsent
events, and reports both to the optional `on_success` / `on_failure`
callbacks.

Modules:

- `Wrappers` (`wrappers.dfy`): `Option` and `Result`.
- `Decimal` (`decimal.dfy`): Python's `str()` on integers, with a parser as
  its inverse. It is used for the port in the collector URI and for the `stm`
  timestamp.
- `Payloads` (`payloads.dfy`): payload values and dictionaries, the POST-mode
  stringification done by `input`, and `attach_sent_timestamp`.
- `Collector` (`collector.dfy`): `as_collector_uri`, `is_good_status_code`,
  and the requests and responses that cross the network.
- `Partition` (`partition.dfy`): the split of a batch, by per-event verdicts,
  into sent and unsent events, plus its inverse `Merge`.
- `Emitters` (`emitter.dfy`): the checks of `__init__` (`Configure`), the
  specification of one `send_events` call (`SendSpec`, which stamps the
  batch and hands it to `Dispatch`), and the class
  `Emitter` with `buffer` and `bytesQueued` fields and the methods `Input`,
  `Flush`, `FlushUnsafe`, `SendEvents`, `SendStamped`, `PostBatch` and
  `GetEach`.
- `EmitterProperties` (`emitter_properties.dfy`): lemmas about flushing and
  the worked examples from the unit tests.

The outside world enters as parameters:

- `network: nat -> Response` gives the response to the `i`-th request of one
  flush. A response is a status code or a client error (refused
  connection, timeout). A request is delivered exactly when it gets a status
  code in [200, 400), as `http_get`/`http_post` decide. A client error
  counts as not delivered.
- `clock: nat -> nat` gives the whole-second reading of `int(time.time())`
  taken when the `i`-th event of a flush is stamped. The source reads the
  clock once per event, so one batch can span two seconds.
- `measure: Payload -> nat`, fixed when the emitter is built, stands for
  `len(str(payload))`.

What the emitter sends, and which callbacks it invokes with which arguments,
are recorded in the emitter's `requests` and `notifications` fields.

The code and the constructor's docstring disagree about both callbacks, and
the model follows the code. For `on_failure`, the docstring says a POST
failure passes the unsent data as a string; the code passes the list of
unsent events in both modes. For `on_success`, the docstring says it runs
after every request of a flush succeeds and receives the number of events
flushed; the code runs it whenever at least one event was sent and passes
the list of sent events.

## Model

| member | source | states |
|---|---|---|
| `Decimal.IntToStringRoundTrip` | aio_snowplow_tracker/emitters.py:147 | `str(n)` of an integer can be parsed back to `n`, so the port text and the `stm` text lose nothing |
| `Decimal.IntToStringInjective` | aio_snowplow_tracker/emitters.py:147 | distinct integers render as distinct decimal texts |
| `Payloads.Stringify` | aio_snowplow_tracker/emitters.py:161-162 | POST-mode storage keeps exactly the payload's keys, makes every value a string, and leaves string values unchanged |
| `Payloads.StringifyIdempotent` | aio_snowplow_tracker/emitters.py:162 | stringifying an already stringified payload changes nothing |
| `Payloads.StringifyKeepsIntegers` | aio_snowplow_tracker/emitters.py:162 | an integer value, once stringified, reads back as the same integer |
| `Payloads.StmValueMeaning` | aio_snowplow_tracker/emitters.py:337 | the `stm` text is the clock reading in milliseconds (seconds × 1000), and distinct readings give distinct stamps |
| `Payloads.Stamp` | aio_snowplow_tracker/emitters.py:336-337 | stamping adds or overwrites key `stm` and leaves every other key and value as it was |
| `Payloads.StampAll` | aio_snowplow_tracker/emitters.py:339-340 | stamping keeps the batch length, and every event gains key `stm` |
| `Payloads.AttachSentTimestamp` | aio_snowplow_tracker/emitters.py:326-340 | the loop stamps event `i` with the `i`-th clock reading; the number and order of events, and all other keys and values, are unchanged |
| `Payloads.StampAllUniform` | aio_snowplow_tracker/emitters.py:336-340 | when the clock reads the same second for the whole batch, every event carries the same `stm` |
| `Collector.RoutePath` | aio_snowplow_tracker/emitters.py:140-143 | the route is `/i` exactly for method `get`; any other method gets the tp2 route |
| `Collector.PortPart` | aio_snowplow_tracker/emitters.py:144-147 | the `:port` segment is empty exactly when no port is given |
| `Collector.AsCollectorUri` | aio_snowplow_tracker/emitters.py:137-147 | fails exactly for an empty endpoint; otherwise the URI is `protocol://endpoint`, then the port segment, then the route |
| `Collector.CollectorUriInjective` | aio_snowplow_tracker/emitters.py:137-147 | for a fixed endpoint and protocol, the URI determines the port (or its absence) and whether the route is GET's |
| `Collector.CollectorUriDefault` | aio_snowplow_tracker/test/unit/test_emitters.py:95-97 | `as_collector_uri('0.0.0.0')` gives `http://0.0.0.0/i` |
| `Collector.CollectorUriProtocol` | aio_snowplow_tracker/test/unit/test_emitters.py:107-109 | the protocol text, `https` included, goes in front of `://` unchanged: `('0.0.0.0', protocol)` gives `protocol://0.0.0.0/i` |
| `Collector.CollectorUriPost` | aio_snowplow_tracker/test/unit/test_emitters.py:99-101 | with method `post` it gives `http://0.0.0.0` followed by the tp2 route |
| `Collector.CollectorUriPostPort` | aio_snowplow_tracker/test/unit/test_emitters.py:103-105 | with port 9090 and method `post` it gives `http://0.0.0.0:9090` followed by the tp2 route |
| `Collector.IsGoodStatusCode` | aio_snowplow_tracker/emitters.py:258-265 | a good code is in the 2xx or 3xx class, and every non-negative code in those classes is good; `GoodStatusIsSuccessOrRedirect` states the equivalence for all non-negative codes |
| `Collector.GoodStatusIsSuccessOrRedirect` | aio_snowplow_tracker/emitters.py:258-265 | a status code is good exactly when it is in the 2xx or 3xx class |
| `Collector.Delivered` | aio_snowplow_tracker/emitters.py:203-247 | what `http_post` and `http_get` return: a response with a status code is delivered exactly when the code is in [200, 400); a client error is never delivered |
| `Partition.CountSplit` | aio_snowplow_tracker/emitters.py:276-293 | every event is counted on exactly one side: the two counts add up to the batch length |
| `Partition.SelectAt` | aio_snowplow_tracker/emitters.py:287-293 | event `i` lands on the side its own verdict names, at the position given by how many events before it share that verdict |
| `Partition.SelectOrigin` | aio_snowplow_tracker/emitters.py:287-293 | every event on a side comes from the batch at a position whose verdict names that side |
| `Partition.SelectMultiset` | aio_snowplow_tracker/emitters.py:276-293 | together the two sides hold every event of the batch, each as often as in the batch |
| `Partition.MergeSelect` | aio_snowplow_tracker/emitters.py:287-293 | merging the two sides back along the verdicts gives the batch again: an order-preserving partition |
| `Partition.SelectUniform` | aio_snowplow_tracker/emitters.py:279-285 | when all verdicts agree, one side is the whole batch and the other is empty |
| `Emitters.Configure` | aio_snowplow_tracker/emitters.py:92-104 | unknown protocol, unknown method and empty endpoint are errors, in that order; a known protocol and method with a non-empty endpoint always succeed, and then the endpoint is the collector URI, the method is kept, and a missing buffer size defaults to 10 for POST and 1 for GET |
| `Emitters.Prepare` | aio_snowplow_tracker/emitters.py:161-164 | `input` keeps the payload's keys; in POST mode every stored value is a string (`Payloads.Stringify`), in GET mode the payload is stored as given |
| `Emitters.LimitReached` | aio_snowplow_tracker/emitters.py:169-178 | a full buffer always reaches the limit; without a byte limit only the event count decides; with one, a byte count at or over it also triggers, and nothing else does (absent bytes read as 0); `LimitReachedCases` and `LimitReachedMonotone` give the cases and monotonicity |
| `Emitters.Emitter.ReachedLimit` | aio_snowplow_tracker/emitters.py:169-178 | on the emitter's own fields: a buffer of at least `buffer_size` events triggers, without a byte limit nothing else does, and a byte count at or over the limit triggers |
| `Emitters.Notify` | aio_snowplow_tracker/emitters.py:295-298 | one call per registered callback with a non-empty list, and only `on_success(sent)` or `on_failure(len(sent), unsent)`; `NotificationRouting` adds the iff conditions and the success-first order |
| `Emitters.Emitter.constructor` | aio_snowplow_tracker/emitters.py:104-116 | the buffer starts empty; `bytesQueued` is absent exactly when there is no byte limit, and 0 otherwise; nothing has been sent |
| `Emitters.Emitter.Input` | aio_snowplow_tracker/emitters.py:149-167 | appends one prepared entry and adds the size of the original payload to the byte count; flushes exactly when the limit is reached after the append; otherwise nothing is sent and earlier entries are unchanged |
| `Emitters.Emitter.Flush` | aio_snowplow_tracker/emitters.py:180-185 | sends the whole buffer as `send_events` would, then leaves the buffer empty and the byte count at 0 (or absent) |
| `Emitters.Emitter.FlushUnsafe` | aio_snowplow_tracker/emitters.py:187-194 | as `Flush`; flushing an empty buffer issues no request and invokes no callback |
| `Emitters.Emitter.SendEvents` | aio_snowplow_tracker/emitters.py:267-301 | computes exactly the outcome `SendSpec` prescribes: an empty batch issues no request and invokes no callback, any other is stamped and then dispatched |
| `Emitters.Emitter.SendStamped` | aio_snowplow_tracker/emitters.py:276-298 | for a stamped batch, issues the requests, splits the batch by their responses and invokes the registered callbacks, exactly as `Dispatch` prescribes |
| `Emitters.Emitter.PostBatch` | aio_snowplow_tracker/emitters.py:279-285 | one POST request with the whole batch, whose response puts every event on the same side |
| `Emitters.Emitter.GetEach` | aio_snowplow_tracker/emitters.py:287-293 | one GET request per event in batch order; each event is put on the side its own response decides |
| `EmitterProperties.OutcomePartitionsBatch` | aio_snowplow_tracker/emitters.py:276-293 | the sent and unsent lists are an order-preserving partition of the stamped batch, sized by the verdict counts |
| `EmitterProperties.PostAllOrNothing` | aio_snowplow_tracker/emitters.py:279-285 | POST issues one request carrying the whole batch; a good response sends every event, a bad one sends none |
| `EmitterProperties.PostNotifications` | aio_snowplow_tracker/emitters.py:279-298 | after a POST, a good response invokes only `on_success(batch)`, a bad one only `on_failure(0, batch)`, each only when registered |
| `EmitterProperties.GetPerEvent` | aio_snowplow_tracker/emitters.py:287-293 | GET issues a request for every event in order, with no early exit; event `i` is on the sent side when response `i` is good and on the unsent side otherwise |
| `EmitterProperties.GetUniformSides` | aio_snowplow_tracker/emitters.py:287-293 | whatever callbacks are registered, a GET batch whose requests all get the same verdict lands whole on that verdict's side, with nothing on the other |
| `EmitterProperties.GetUniformResponses` | aio_snowplow_tracker/test/unit/test_emitters.py:250-274 | with both callbacks registered, a GET batch whose requests all succeed invokes only `on_success(batch)`; one whose requests all fail invokes only `on_failure(0, batch)` |
| `EmitterProperties.GetSidesMatchResponses` | aio_snowplow_tracker/emitters.py:287-293 | conversely, every sent event is one whose own GET request was delivered, and every unsent event one whose request was not |
| `EmitterProperties.NotificationRouting` | aio_snowplow_tracker/emitters.py:295-298 | `on_success(sent)` is invoked iff it is registered and something was sent; `on_failure(len(sent), unsent)` iff it is registered and something was not sent; no other call is made, and success comes first |
| `EmitterProperties.LimitReachedMonotone` | aio_snowplow_tracker/emitters.py:175-178 | once the limit is reached, a longer buffer or a larger byte count still reaches it |
| `EmitterProperties.LimitReachedCases` | aio_snowplow_tracker/emitters.py:169-178 | with a byte limit, reaching it alone triggers a flush; without one, only `len(buffer) >= buffer_size` matters |
| `EmitterProperties.DefaultConfiguration` | aio_snowplow_tracker/test/unit/test_emitters.py:66-89 | `Emitter('0.0.0.0')` gets `http://0.0.0.0/i`, GET, buffer size 1 and no byte limit; POST defaults to 10; an empty endpoint is rejected |
| `EmitterProperties.StmExample` | aio_snowplow_tracker/test/unit/test_emitters.py:210-219 | a clock frozen at second 1618358402 stamps `"1618358402000"` |
| `EmitterProperties.GetPartialFailureExample` | aio_snowplow_tracker/emitters.py:287-298 | a two-event GET batch whose second request fails yields `on_success([e1])`, then `on_failure(1, [e2])` |
| `EmitterProperties.TwoInputsFlushOnce` | aio_snowplow_tracker/test/unit/test_emitters.py:197-208 | with buffer size 2 and a 256-byte limit, the first input only queues and the second flushes once: the requests are exactly the two GETs of one two-event flush stamped together, no callback runs, and the buffer and byte count are back to empty and 0 |
| `EmitterProperties.SecondInputFlushes` | aio_snowplow_tracker/test/unit/test_emitters.py:203-208 | the second input of that example reaches the limit and flushes once: exactly the GET requests of the two-event batch `[e, e]` stamped together, no callback, then an empty buffer and a byte count of 0 |

## Left out

- The bodies of `http_post` and `http_get` (aiohttp sessions, headers, timeouts, closing the session, logging) are network I/O. They are replaced by the `network` oracle, with `Delivered` as their return value.
- `SelfDescribingJson(...).to_string()` is not part of this model. A POST request carries the schema identifier and the list of stamped events, not their JSON text.
- The `asyncio.Lock` is concurrency. `Input` and `Flush` are modelled as atomic sequential methods, so `Flush` is `FlushUnsafe`.
- `sync_flush` is not modelled separately: it only calls `flush`.
- `set_flush_timer` and `cancel_flush_timer` depend on the event loop and the `Timer` class, and `_timer.py` is not part of this model.
- `time.time()` is an input. `clock` gives each stamping's whole-second reading, so `int()` truncation is assumed done and readings before 1970 are not considered.
- `len(str(payload))` is the `measure` parameter, because Python's dict `repr` is not modelled.
- `contracts.py` is not part of this model. `one_of` is taken to raise whenever the value is outside the set, that is, with contract checking enabled.
- `request_timeout` and `client_session` are only stored and then handed to aiohttp, so they are not modelled. Logging is not modelled either.
- Payloads are values, not shared mutable dicts. In the source, GET mode buffers the caller's own dict, and `attach_sent_timestamp` therefore also stamps the caller's object. Stamping the same dict twice in one batch keeps the later reading. The model stamps copies and does not capture this aliasing.
- Payload key order (Python dicts keep insertion order) is not modelled. It affects only the serialized text, which is out of the model.
- `Payloads.Value` models strings, integers and booleans. Every other Python value is carried by the text `str()` gives it.
- Emitters.Emitter.FlushUnsafe: assumes `send_events` returns normally, that is, the callbacks do not raise and a request fails only with `aiohttp.ClientError`, the one exception `http_get`/`http_post` catch. In the source, any other exception propagates out of `flush` and `input` before the buffer and byte count are reset, so the next flush stamps and sends the same events again. The model always empties the buffer, so `Input` and `Flush` do not capture this path either.
