# krapht pipeline core in Dafny

This project models the sequential meaning of the `pipeline` package of
krapht, a Go library for building data pipelines out of sources, flows and
sinks that talk over channels and report what happens as events.

The model covers:

- **Events** (`events.dfy`): the kind tags (`EventLog`, `EventError`,
  `EventMetric`), the log levels with their gap at 5, the metric kinds, the
  three built-in event variants with their accessors and renderings, and
  `SendEvent`, the non-blocking send that never waits and reports whether
  the event went through.
- **Channels** (`channels.dfy`): a Go channel seen one step at a time. It
  has a FIFO buffer of fixed capacity, the items receivers took, the
  receivers blocked on it, and a closed flag. A nil channel is `null`.
- **Event collector** (`collector.dfy`): functional options,
  `NewEventCollector`, `Collect`, the callback dispatch of `processEvent`
  and `Close`, as a class whose fields the methods update. Every callback
  invocation is recorded in the `invoked` field, so dispatch order can be
  stated.
- **Flows** (`flow.dfy`): the constructors and the `Transform` loops of
  Filter, Map, FilterMap, Buffer and Passthrough. Each loop reads a finite
  input stream. The Filter, Map and FilterMap loops are proved equal to pure
  functions of that stream (`Filtered`, `Mapped`, `TransformErrors`), and the
  properties of the flows are proved about those functions. Buffer and
  Passthrough push onto a `Channel` that a reader drains, so their contracts
  speak of the output channel itself.
- **HTTP source** (`http_source.dfy`): the defaults of `NewHTTPServer`,
  `NewHTTPLog` and its accessors, and the request handler's rule from the
  body bytes to the forwarded log and the status code.

Three behaviours of the code worth knowing when reading the model:

- An invalid `WithWorkers` or `WithBufferSize` argument is ignored, so an
  earlier valid setting stays in force; the default applies only when no
  option set the value (`LastValidWorkersWins`, `WorkersDefault`).
- Map and FilterMap report transform failures with a plain blocking send
  on the event channel, not with `SendEvent`.
- Logs built by the HTTP request handler carry the zero UUID and the raw
  remote address. They do not go through `NewHTTPLog`.

## Model

| member | source | states |
|---|---|---|
| Events.TypeIdentifiesVariant | pkg/pipeline/event.go:6-13 | the kind tag is EventLog, EventError or EventMetric exactly for the matching built-in variant, or for another event that declares that tag |
| Events.LevelNumbering | pkg/pipeline/event_log.go:6-17 | the levels are Error 3, Warn 4, Info 6, Debug 7, strictly ordered, and 5 is not a named level |
| Events.NewLogEvent | pkg/pipeline/event_log.go:34-55 | a log event has kind EventLog, reports the level it was built with, and renders as "source: msg" |
| Events.SendLog | pkg/pipeline/event_log.go:58-60 | a completed send of the log event appends it to everything the event channel has carried: handed to a waiting receiver (one fewer waits) when there is one, queued at the end of the buffer otherwise |
| Events.NewErrorEvent | pkg/pipeline/event_error.go:17-48 | an error event has kind EventError, keeps its temporary flag and its cause, renders as "msg: cause" with the same text as Error(), and can be rendered exactly when the cause is not nil |
| Events.NewMetricEvent | pkg/pipeline/event_metric.go:41-78 | a metric event has kind EventMetric, its name as rendering and Name, exactly the given labels, and the given metric kind as a string |
| Events.MetricTypeNames | pkg/pipeline/event_metric.go:6-15 | the four metric kinds are "counter", "gauge", "histogram" and "summary", four distinct strings |
| Events.SendEvent | pkg/pipeline/event.go:25-36 | a nil channel refuses the event; otherwise the event goes through exactly when a receiver waits (handed over) or the buffer has room (queued), and a refused event leaves the channel unchanged |
| Events.SendEventCases | pkg/pipeline/event_test.go:11-94 | the five cases of the send test: nil refuses; a buffered channel with room queues; a full one refuses and keeps its buffer; an unbuffered channel with a waiting receiver hands the event over; an unbuffered one without a receiver refuses |
| Flow.NewFilter | pkg/pipeline/flow/filter.go:22-30 | fails with "predicate func is nil" exactly when the predicate is nil, else keeps the predicate |
| Flow.FilterTransform | pkg/pipeline/flow/filter.go:34-45 | the output stream is the input items satisfying the predicate, in order, and no event is emitted |
| Flow.FilteredAppend | pkg/pipeline/flow/filter.go:34-45 | filtering distributes over concatenation of input streams |
| Flow.FilteredSound | pkg/pipeline/flow/filter.go:34-45 | the output is no longer than the input and every output item is an input item satisfying the predicate |
| Flow.FilteredCounts | pkg/pipeline/flow/filter.go:34-45 | each value occurs in the output as often as in the input if it satisfies the predicate, and never otherwise |
| Flow.FilteredMembership | pkg/pipeline/flow/filter.go:34-45 | a value is in the output if and only if it is in the input and satisfies the predicate |
| Flow.FilteredIdempotent | pkg/pipeline/flow/filter.go:34-45 | filtering a filtered stream with the same predicate changes nothing |
| Flow.FilteredAll | pkg/pipeline/flow/filter.go:34-45 | when every input item satisfies the predicate the output is the input |
| Flow.FilterEvenExample | pkg/pipeline/flow/filter_test.go:11-47 | keeping the even numbers of 1, 2, 3, 4 yields 2, 4 |
| Flow.NewMap | pkg/pipeline/flow/map.go:20-28 | fails with "transform func is nil" exactly when the transform is nil, else keeps the transform |
| Flow.MapTransform | pkg/pipeline/flow/map.go:31-49 | the output is the successful transform results in input order; each failure emits one temporary error event "map transform error" wrapping the failure, in input order |
| Flow.MappedConserves | pkg/pipeline/flow/map.go:31-49 | every input item yields exactly one output item or one error event |
| Flow.MappedTotal | pkg/pipeline/flow/map.go:31-49 | when the transform never fails, the k-th output is the transform of the k-th input and no event is emitted |
| Flow.MappedAppend | pkg/pipeline/flow/map.go:31-49 | outputs and error events of a concatenated stream are the concatenations of those of its parts |
| Flow.MappedProvenance | pkg/pipeline/flow/map.go:31-49 | every output value is the successful result of some input item, and every event is a temporary error event wrapping a failure of some input item |
| Flow.MapItoaExample | pkg/pipeline/flow/map_test.go:12-53 | mapping 1, 2, 3 through integer formatting yields "1", "2", "3" and no event |
| Flow.NewFilterMap | pkg/pipeline/flow/filtermap.go:18-32 | succeeds exactly when both functions are set; a nil predicate is reported first ("predicate func is nil"), then a nil transform ("transform func is nil") |
| Flow.FilterMapTransform | pkg/pipeline/flow/filtermap.go:35-51 | the output is the successful transform results of the items passing the predicate; each failure among those emits one temporary error event "filtermap error transforming data" |
| Flow.FilterMapConserves | pkg/pipeline/flow/filtermap.go:35-51 | every item passing the predicate yields exactly one output item or one error event |
| Flow.MapIsFilterMapOfTrue | pkg/pipeline/flow/filtermap.go:35-51 | with an always-true predicate, FilterMap's output equals Map's output and it emits as many error events (the messages differ) |
| Flow.FilterEvenFive | pkg/pipeline/flow/filtermap_test.go:12-43 | the even numbers of 1..5 are 2, 4 |
| Flow.FilterMapExample | pkg/pipeline/flow/filtermap_test.go:12-43 | filtering 1..5 to even numbers and formatting them yields "2", "4" |
| Flow.NewBuffer | pkg/pipeline/flow/buffer.go:20-27 | a positive size is kept and a size of zero or less becomes 1 |
| Flow.NewBufferCoerces | pkg/pipeline/flow/buffer.go:20-27 | every non-positive size builds the same buffer as size 1 |
| Flow.BufferTransform | pkg/pipeline/flow/buffer.go:31-41 | for any pace of the reader, the output is a new channel of capacity size that ends closed and drained, having delivered exactly the input in order; no event is emitted. Every push goes through Channel.Send, which requires a free slot, so the channel never holds more than size |
| Flow.PassthroughTransform | pkg/pipeline/flow/passthrough.go:20-30 | the output is a new unbuffered channel; each item is handed to a waiting reader, nothing is ever queued, and it ends closed having delivered exactly the input in order; no event is emitted |
| Collector.ConfigureDefaults | pkg/pipeline/event_collector.go:73-87 | with no options a collector has 1 worker, a buffer of 100 and no callbacks |
| Collector.ApplyAllAppend | pkg/pipeline/event_collector.go:81-84 | applying options in sequence composes: applying a then b is applying b to the result of a |
| Collector.ConfigureWellFormed | pkg/pipeline/event_collector.go:21-36 | whatever the options, workers and buffer size stay at least 1 |
| Collector.LastValidWorkersWins | pkg/pipeline/event_collector.go:21-27 | the worker count is the argument of the last WithWorkers with a positive argument |
| Collector.WorkersDefault | pkg/pipeline/event_collector.go:21-27 | without a positive WithWorkers the worker count stays 1 |
| Collector.LastValidBufferSizeWins | pkg/pipeline/event_collector.go:30-36 | the buffer size is the argument of the last WithBufferSize with a positive argument |
| Collector.BufferSizeDefault | pkg/pipeline/event_collector.go:30-36 | without a positive WithBufferSize the buffer size stays 100 |
| Collector.ConfigureCallbacks | pkg/pipeline/event_collector.go:39-57 | the general and the typed callbacks are the non-nil ones given, in option order |
| Collector.MatchingTypedCount | pkg/pipeline/event_collector.go:136-142 | a callback runs for an event kind as many times as it was registered for that kind |
| Collector.MatchingTypedAppend | pkg/pipeline/event_collector.go:136-142 | typed dispatch over a concatenated registration list is the concatenation of the dispatches |
| Collector.DispatchRule | pkg/pipeline/event_collector.go:130-143 | all general callbacks run first, in order; a callback runs as often as it is registered generally plus for the event's kind; it runs at all exactly when registered generally or for that kind |
| Collector.TypedTestConfig | pkg/pipeline/event_collector_test.go:111-158 | two typed options register callback 1 for kind 10 and callback 2 for kind 11 |
| Collector.TypedTestDispatch | pkg/pipeline/event_collector_test.go:111-158 | events of kinds 10 and 11 run callback 1 once and callback 2 once |
| Collector.EventCollector.constructor | pkg/pipeline/event_collector.go:73-87 | a new collector holds the settings the options produce from the defaults, is not open and has run no callback |
| Collector.EventCollector.Apply | pkg/pipeline/event_collector.go:21-57 | one option changes the settings as ApplyOption says and nothing else |
| Collector.EventCollector.Collect | pkg/pipeline/event_collector.go:93-126 | an open collector returns its channel unchanged; otherwise a fresh empty channel of the configured capacity with as many workers running as configured |
| Collector.EventCollector.ProcessEvent | pkg/pipeline/event_collector.go:130-143 | the callbacks run are the general ones in order, then the typed ones registered for the event's kind in order |
| Collector.EventCollector.WorkerStep | pkg/pipeline/event_collector.go:117-120 | a worker takes the oldest buffered event and runs its callbacks; callbacks run plus callbacks owed to the buffer stay the same |
| Collector.EventCollector.Drain | pkg/pipeline/event_collector.go:117-120 | after close, the workers receive every buffered event in FIFO order and run its callbacks; nothing stays buffered |
| Collector.EventCollector.Close | pkg/pipeline/event_collector.go:146-157 | closing a closed collector does nothing; otherwise the channel is closed and every buffered event is dispatched in FIFO order before Close returns |
| Collector.CollectorCases | pkg/pipeline/event_collector_test.go:111-219 | with callback 1 typed for kind 10 and callback 2 for kind 11, events of kinds 10 and 11 sent with a plain send have run [1, 2] by the time Close returns, and a second Close changes nothing |
| HttpSource.NewHTTPLog | pkg/pipeline/source/http_server.go:26-54 | a nil log fails with "http log error: log is nil", a UUID failure is passed on; otherwise Read gives the bytes back and Addr is the address, or "unknown" for an empty one |
| HttpSource.NewHTTPServer | pkg/pipeline/source/http_server.go:81-104 | never fails; an empty address, endpoint or zero timeout takes ":8008", "/log" or 5 seconds, and every set field is kept |
| HttpSource.NewHTTPServerIdempotent | pkg/pipeline/source/http_server.go:81-104 | building a server from a built server's own settings yields the same server |
| HttpSource.NormalizedBody | pkg/pipeline/source/http_server.go:166-177 | an empty body is rejected; any other body is forwarded as a prefix of the result ending in a newline, at most one byte longer |
| HttpSource.NormalizedBodyCases | pkg/pipeline/source/http_server.go:172-177 | a body ending in a newline is forwarded unchanged and any other gets exactly one newline appended |
| HttpSource.NormalizedBodyIdempotent | pkg/pipeline/source/http_server.go:172-177 | normalising a normalised body changes nothing |
| HttpSource.ServeHTTP | pkg/pipeline/source/http_server.go:157-183 | a read error answers 500 and an empty body 400, both sending nothing; otherwise exactly one log with the normalised body and the remote address is sent and the answer is 200 |
| HttpSource.ServeTestLog | pkg/pipeline/source/http_server_test.go:40-58 | the body "test log\n" reaches the output as it is |

## Left out

- Goroutines, `sync.WaitGroup` and `atomic.Bool` are not modelled; the model is sequential. One worker handles one event per step, and `Close` drains the buffer in FIFO order. The order in which several workers interleave their callbacks, and the speed-up of more workers, are not captured.
- Collector.EventCollector.Collect: the worker goroutines are a counter (`running`); their bodies are `WorkerStep`, which a caller invokes explicitly.
- `MetricEvent.Value` and the `float64` value field are left out: floating point is not modelled.
- Go error values are modelled by their messages (`Option<string>`, None for nil). `Unwrap` returns the message, not the identity of the original error.
- `ErrorEvent.String` with a nil cause panics in Go; the model makes `Renderable` a precondition of `String` instead.
- Events.SendLog: a blocking send is described only once it completes (the channel must be ready); waiting for a receiver is not modelled.
- Events.SendEvent: requires an open channel; the panic of a send on a closed Go channel is not modelled.
- Flow transforms take a finite input sequence instead of a channel read until closed. Filter, Map and FilterMap produce their output as a sequence, so blocking on their output channel, and on the event channel for Map and FilterMap error events, is not modelled; a nil event channel, on which Go would block forever, is not modelled either.
- Flow.BufferTransform: the reader's pace is a parameter (`schedule`); context cancellation and a reader that stops early are not modelled.
- Flow.NewPassthrough: Passthrough holds no state, so its constructor has nothing to state.
- Callbacks are modelled by identifiers; a nil callback is `None` and is not registered. What a callback does is outside the model; only that it ran is recorded.
- `HTTPServer.Extract` is not modelled, nor `ListenAndServe`, `Shutdown`, context cancellation or the response writer. The "failed to write response" error event is left out with them.
- HttpSource.NewHTTPLog: `uuid.NewUUID` is a parameter (its outcome), since it reads the clock and the network card. `HTTPLog.ID` is only the stored field.
- `pipeline.go` and `readable.go` declare interfaces only and have no behaviour to model.
- The NATS adapters (`source/nats_stream.go`, `sink/nats_stream.go`), `sink/logger.go`, `sink/noop.go` and the `mock` package are not part of this model; they are I/O adapters and test helpers around the core.
