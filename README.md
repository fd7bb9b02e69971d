# my-app-insights: telemetry buffer and writer loop, modelled in Dafny

The library buffers telemetry in process. Application code records two kinds
of events: an HTTP request served (url, method, status code, duration) and an
outbound dependency call (name, dependency type, target, success, duration).
The recorder appends each event to a shared queue. A background writer loop
drains the queue batch by batch and hands every event, in order, to an
Application Insights client as a request record or a remote-dependency record.
With no instrumentation key configured, no client is built. The writer then
only waits for the application to shut down.

Modules, one per core source file, plus `DecimalText` (the status code's `to_string`) and `Wrappers` (`Option`):

- `TelemetryEvents` (`telemetry_event.dfy`): the two-variant event datatype and
  the `u16` status-code type.
- `EventQueue` (`events_queue.dfy`): the queue as a class. Its buffer is a `seq`
  field. Ghost fields hold the enqueue history and the drained batches. The
  invariant `Valid()` is conservation: the drained batches, concatenated and
  followed by the buffered events, equal the history.
- `DecimalText` (`decimal_text.dfy`): the decimal rendering of the status code
  that Rust's `u16::to_string` produces, and its inverse.
- `TelemetryWriter` (`telemetry_writer.dfy`): the event-to-record mapping as
  functions; the client reduced to its configuration, role tag and a ghost
  trace of tracked records; and `start`, `write_loop` and the idle loop as
  methods.
- `AppInsights` (`app_insights_telemetry.dfy`): the recorder class, with the
  `MyTelemetry` adapter methods.
- `Wrappers` (`wrappers.dfy`): `Option`.

Abstractions:
- The mutex is abstracted: `enqueue` and `dequeue` are single atomic steps.
- `tokio::spawn` in the recorders becomes an enqueue that happens within the
  call.
- Sleeps are steps with no effect.
- `ApplicationStates::is_shutting_down()` is an oracle `polls: seq<bool>`.
  `polls[i]` is the answer at the i-th check, and every check past the end
  answers true.
- The environment lookup of `APPINSIGHTS_INSTRUMENTATIONKEY` is an
  `Option<string>` parameter of the recorder's constructor.
- `hyper::Uri` and `hyper::Method` are strings.
- `Duration` is a `nat`.
- `method` is a Dafny keyword, so the event field is named `httpMethod`.

## Model

| member | source | states |
|---|---|---|
| EventQueue.EventsQueue.constructor | src/events_queue.rs:10-14 | a new queue is empty, with empty history and no drained batch; conservation holds |
| EventQueue.EventsQueue.Enqueue | src/events_queue.rs:15-18 | contents become old contents ++ [event], so earlier elements keep their order; the event joins the history; conservation is preserved |
| EventQueue.EventsQueue.Dequeue | src/events_queue.rs:20-29 | on an empty buffer: `None`, and nothing is drained; otherwise `Some` of the old contents in insertion order, never an empty batch, recorded as one drained batch; either way the buffer is left empty and conservation is preserved |
| EventQueue.ConcatAppend | src/events_queue.rs:26-28 | draining one more batch extends the concatenation of all drained batches by exactly that batch, the step that keeps conservation |
| EventQueue.DrainAfterEnqueues | src/events_queue.rs:15-29 | N enqueues then one dequeue return exactly those N events in call order (`None` when N = 0), and an immediate second dequeue returns `None` |
| DecimalText.ToDecimal | src/telemetry_writer.rs:70 | the rendering is at least one decimal digit with no leading zero ("0" aside), and its last digit is n mod 10 |
| DecimalText.ParseDecimal | src/telemetry_writer.rs:70 | the inverse reading succeeds exactly on non-empty strings of decimal digits |
| DecimalText.ParseToDecimal | src/telemetry_writer.rs:70 | round trip: parsing the rendering of n yields n |
| DecimalText.ToDecimalOfParse | src/telemetry_writer.rs:70 | converse round trip: every canonical digit string is the rendering of the number it parses to |
| DecimalText.ToDecimalInjective | src/telemetry_writer.rs:70 | distinct status codes have distinct renderings |
| DecimalText.ToDecimalLength | src/telemetry_writer.rs:70 | a number below 10^k is rendered with at most k digits |
| TelemetryWriter.ResponseCodeText | src/telemetry_writer.rs:70 | the response code of a u16 status is canonical and at most five digits long |
| TelemetryWriter.TelemetryClient.FromConfig | src/telemetry_writer.rs:22-31 | the client carries the given configuration, has no role yet and has tracked nothing |
| TelemetryWriter.TelemetryClient.SetRole | src/telemetry_writer.rs:33-37 | the cloud role tag becomes the given name |
| TelemetryWriter.TelemetryClient.Track | src/telemetry_writer.rs:73 | `track` appends exactly the record to the client's trace, and logs the role tag in effect at that moment |
| TelemetryWriter.ToTelemetry | src/telemetry_writer.rs:59-90 | a server event becomes a request record and a dependency event a dependency record, with the same duration |
| TelemetryWriter.ToTelemetryLossless | src/telemetry_writer.rs:60-89 | every field of the event is read back from its record: url, method, duration and status code (through the decimal string) for a request; name, dependency type, target, success and duration for a dependency |
| TelemetryWriter.ToTelemetryBatch | src/telemetry_writer.rs:57-92 | exactly one record per event of the batch, at the same position |
| TelemetryWriter.ToTelemetryBatchAppend | src/telemetry_writer.rs:57-92 | forwarding two batches in turn equals forwarding their concatenation |
| TelemetryWriter.PollsUntilShutdown | src/telemetry_writer.rs:55 | the number of iterations is the index of the first check that answers true: every earlier check answered false |
| TelemetryWriter.TrackBatch | src/telemetry_writer.rs:58-92 | the trace grows by the batch's records, one per event, in the batch's order, each tracked under the client's current role |
| TelemetryWriter.WriteLoop | src/telemetry_writer.rs:48-99 | it runs until the first true shutdown check and does nothing after it; the trace grows by exactly the records of the batches it drained, in order; with at least one iteration, the buffer ends empty and the trace grows by the records of its initial contents; with none, the queue is untouched; the role tag stays as it was for every record it tracks; history and conservation are kept |
| TelemetryWriter.IdleUntilShutdown | src/telemetry_writer.rs:40-45 | the idle loop runs until the first true shutdown check and changes nothing |
| TelemetryWriter.Start | src/telemetry_writer.rs:14-46 | a client exists iff a key is given. It is fresh, configured with that key and a 5 s interval, and tagged with the role name before anything is tracked, so every record is tracked under that role; its whole trace is the records of what the loop drained, and after at least one iteration the buffer is empty. Without a key, the queue is unchanged and nothing is tracked |
| AppInsights.AppInsightsTelemetry.constructor | src/app_insights_telemetry.rs:17-29 | the queue is fresh and empty; the key is stored as `Some` exactly when the environment lookup succeeded; the role name is stored |
| AppInsights.AppInsightsTelemetry.WriteHttpRequestDuration | src/app_insights_telemetry.rs:31-50 | enqueues exactly the server event with url, status code, duration and method from the arguments, whatever the key |
| AppInsights.AppInsightsTelemetry.WriteDependencyRequestDuration | src/app_insights_telemetry.rs:52-73 | enqueues exactly the dependency event with name, dependency type, target, success and duration from the arguments, whatever the key |
| AppInsights.AppInsightsTelemetry.Start | src/app_insights_telemetry.rs:75-83 | runs the writer with the stored role name, the stored key and this object's own queue. It has the writer's whole contract: one role-log entry per tracked record, each equal to the stored role; the trace is the records of the batches drained from this queue; after at least one iteration the buffer is empty |
| AppInsights.AppInsightsTelemetry.TrackUrlDuration | src/app_insights_telemetry.rs:87-95 | `uri` is recorded as the url and `http_code` as the status code; method and duration pass through |
| AppInsights.AppInsightsTelemetry.TrackDependencyDuration | src/app_insights_telemetry.rs:97-106 | `host` is recorded as the name, `protocol` as the dependency type, `resource` as the target; success and duration pass through |
| AppInsights.RequestForwarding | src/app_insights_telemetry.rs:87-95 | a recorder with a key records one request through the adapter and the writer runs one iteration; the client then holds exactly one request record with the same method, uri and duration, and its response code reads back as the status code; that record was tracked under the recorder's role |
| AppInsights.DependencyForwarding | src/app_insights_telemetry.rs:97-106 | a recorder with a key records one call through the adapter and the writer runs one iteration; the client then holds exactly one dependency record named after the host, typed by the protocol and aimed at the resource, with success and duration passed through; that record was tracked under the recorder's role |

## Left out

- Concurrency: the tokio mutex, `.await` and the spawned enqueue tasks. Each queue operation is one atomic step. The model completes each spawned enqueue inside its record call. So in the model, record calls are ordered by call order, and each event is visible to the next drain. The source guarantees neither: each enqueue runs in its own spawned task. It may land after a later call's event, after the next drain, or not before shutdown at all.
- WriteLoop: no producer runs while the loop runs, so every batch after the first drain is `None`. The general statement still holds: the trace grows by exactly the drained batches. Interleavings of producers with the writer are not modelled.
- Timing: the 1 s sleeps and the 5 s flush interval are not modelled as time. The interval is kept only as the configured constant.
- The Application Insights client: batching, network flushing and authentication belong to an external library. The client is reduced to its configuration, its role tag and an append-only trace.
- Environment lookup: the key is an input to the recorder's constructor.
- `hyper::Uri` and `hyper::Method` parsing is not modelled; both are opaque strings.
- Start: the source clones the key, so calling `start` twice builds two clients. The model follows the code. It does not make construction at-most-once by consuming the key.
- src/telemetry_publisher.rs: not part of this model. src/lib.rs does not declare it as a module, and it reads event fields that the event type does not have.
- src/lib.rs holds only module declarations and re-exports.
