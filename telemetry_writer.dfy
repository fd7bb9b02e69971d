/**
 * The background side: resolve whether a backend key is configured, and
 * either forward every drained event to the telemetry client or idle until
 * shutdown.
 *
 * The application-states object is an oracle: `polls[i]` is what
 * `is_shutting_down()` answers at the i-th check, and every check past the
 * end of `polls` answers true, so each run of a loop is finite.
 */
module TelemetryWriter {
  import opened Wrappers
  import opened TelemetryEvents
  import opened DecimalText
  import opened EventQueue

  /** The flush interval, in seconds, the client is configured with. */
  const FlushIntervalSeconds: nat := 5

  /** The settings handed to the client: instrumentation key and flush interval. */
  datatype TelemetryConfig = TelemetryConfig(iKey: string, intervalSeconds: nat)

  /** The two record shapes the client accepts. */
  datatype Telemetry =
    | RequestTelemetry(httpMethod: string, uri: string, duration: nat, responseCode: string)
    | RemoteDependencyTelemetry(name: string, dependencyType: string, duration: nat,
                                target: string, success: bool)

  /**
   * The external client, reduced to its configuration, its cloud role tag
   * and the trace of records handed to `track`. `roles[i]` is the role tag
   * that was in effect when `trace[i]` was tracked.
   */
  class TelemetryClient {
    const config: TelemetryConfig
    var role: Option<string>
    ghost var trace: seq<Telemetry>
    ghost var roles: seq<Option<string>>

    constructor FromConfig(config: TelemetryConfig)
      ensures this.config == config && role == None && trace == [] && roles == []
    {
      this.config := config;
      role := None;
      trace, roles := [], [];
    }

    method SetRole(name: string)
      modifies this`role
      ensures role == Some(name)
    {
      role := Some(name);
    }

    method Track(record: Telemetry)
      modifies this`trace, this`roles
      ensures trace == old(trace) + [record]
      ensures roles == old(roles) + [role]
    {
      trace := trace + [record];
      roles := roles + [role];
    }
  }

  /** The record one event becomes: same variant, same duration. */
  function ToTelemetry(e: TelemetryEvent): (t: Telemetry)
    ensures e.HttpServerEvent? <==> t.RequestTelemetry?
    ensures t.duration == e.duration
  {
    match e
    case HttpServerEvent(url, statusCode, duration, httpMethod) =>
      RequestTelemetry(httpMethod, url, duration, ToDecimal(statusCode as nat))
    case HttpDependencyEvent(name, dependencyType, target, success, duration) =>
      RemoteDependencyTelemetry(name, dependencyType, duration, target, success)
  }

  /**
   * The event a record was made from; `None` when the response code is not
   * the rendering of a 16-bit number.
   */
  function FromTelemetry(t: Telemetry): Option<TelemetryEvent>
  {
    match t
    case RequestTelemetry(httpMethod, uri, duration, responseCode) =>
      (match ParseDecimal(responseCode)
       case Some(code) =>
         if code < 0x1_0000 then Some(HttpServerEvent(uri, code as u16, duration, httpMethod)) else None
       case None => None)
    case RemoteDependencyTelemetry(name, dependencyType, duration, target, success) =>
      Some(HttpDependencyEvent(name, dependencyType, target, success, duration))
  }

  /** The mapping loses nothing: every field of the event can be read back from its record. */
  lemma ToTelemetryLossless(e: TelemetryEvent)
    ensures FromTelemetry(ToTelemetry(e)) == Some(e)
  {
    if e.HttpServerEvent? {
      ParseToDecimal(e.statusCode as nat);
    }
  }

  /** The status code is rendered with at most five digits and no leading zero. */
  lemma ResponseCodeText(code: u16)
    ensures IsCanonical(ToDecimal(code as nat)) && |ToDecimal(code as nat)| <= 5
  {
    assert Pow10(5) == 100000;
    ToDecimalLength(code as nat, 5);
  }

  /** One record per event, in the batch's order. */
  function ToTelemetryBatch(batch: seq<TelemetryEvent>): (r: seq<Telemetry>)
    ensures |r| == |batch|
    ensures forall i :: 0 <= i < |batch| ==> r[i] == ToTelemetry(batch[i])
  {
    if batch == [] then [] else [ToTelemetry(batch[0])] + ToTelemetryBatch(batch[1..])
  }

  /** Forwarding two batches one after the other is forwarding their concatenation. */
  lemma ToTelemetryBatchAppend(a: seq<TelemetryEvent>, b: seq<TelemetryEvent>)
    ensures ToTelemetryBatch(a + b) == ToTelemetryBatch(a) + ToTelemetryBatch(b)
  {
  }

  /** The number of iterations a loop runs: the index of the first check that answers true. */
  function PollsUntilShutdown(polls: seq<bool>): (n: nat)
    ensures n <= |polls|
    ensures forall i :: 0 <= i < n ==> !polls[i]
    ensures n < |polls| ==> polls[n]
  {
    if polls == [] || polls[0] then 0 else 1 + PollsUntilShutdown(polls[1..])
  }

  /** The answer of the i-th `is_shutting_down()` check. */
  predicate IsShuttingDown(polls: seq<bool>, i: nat)
  {
    i >= |polls| || polls[i]
  }

  /** Hands every event of one drained batch to the client, in order. */
  method TrackBatch(client: TelemetryClient, batch: seq<TelemetryEvent>)
    modifies client`trace, client`roles
    ensures client.trace == old(client.trace) + ToTelemetryBatch(batch)
    ensures |client.roles| == |old(client.roles)| + |batch|
    ensures client.roles[..|old(client.roles)|] == old(client.roles)
    ensures forall i :: |old(client.roles)| <= i < |client.roles| ==> client.roles[i] == client.role
  {
    for i := 0 to |batch|
      invariant client.trace == old(client.trace) + ToTelemetryBatch(batch[..i])
      invariant |client.roles| == |old(client.roles)| + i
      invariant client.roles[..|old(client.roles)|] == old(client.roles)
      invariant forall j :: |old(client.roles)| <= j < |client.roles| ==> client.roles[j] == client.role
    {
      assert batch[..i + 1] == batch[..i] + [batch[i]];
      ToTelemetryBatchAppend(batch[..i], [batch[i]]);
      client.Track(ToTelemetry(batch[i]));
    }
    assert batch[..|batch|] == batch;
  }

  /**
   * The configured loop: until shutdown is observed, drain the queue and
   * forward the batch, or sleep when there is nothing to drain. The check
   * happens only at the top of an iteration, so once it answers true nothing
   * more is drained or tracked.
   */
  method WriteLoop(client: TelemetryClient, polls: seq<bool>, events: EventsQueue)
    returns (iterations: nat)
    requires events.Valid()
    modifies client`trace, client`roles, events
    ensures events.Valid() && events.history == old(events.history)
    ensures iterations == PollsUntilShutdown(polls)
    ensures |client.trace| >= |old(client.trace)|
    ensures |client.roles| == |client.trace| - |old(client.trace)| + |old(client.roles)|
    ensures client.roles[..|old(client.roles)|] == old(client.roles)
    ensures forall i :: |old(client.roles)| <= i < |client.roles| ==> client.roles[i] == client.role
    ensures |events.drained| >= |old(events.drained)|
    ensures events.drained[..|old(events.drained)|] == old(events.drained)
    ensures client.trace == old(client.trace) + ToTelemetryBatch(Concat(events.drained[|old(events.drained)|..]))
    ensures iterations == 0 ==> events.events == old(events.events) && events.drained == old(events.drained)
    ensures iterations > 0 ==> events.events == []
    ensures iterations > 0 ==> client.trace == old(client.trace) + ToTelemetryBatch(old(events.events))
  {
    ghost var before := |events.drained|;
    iterations := 0;
    while !IsShuttingDown(polls, iterations)
      invariant iterations <= PollsUntilShutdown(polls)
      invariant events.Valid() && events.history == old(events.history)
      invariant |events.drained| >= before && events.drained[..before] == old(events.drained)
      invariant client.trace == old(client.trace) + ToTelemetryBatch(Concat(events.drained[before..]))
      invariant iterations == 0 ==> events.events == old(events.events) && events.drained == old(events.drained)
      invariant iterations > 0 ==> events.events == [] && Concat(events.drained[before..]) == old(events.events)
      invariant |client.trace| >= |old(client.trace)|
      invariant |client.roles| == |client.trace| - |old(client.trace)| + |old(client.roles)|
      invariant client.roles[..|old(client.roles)|] == old(client.roles)
      invariant forall i :: |old(client.roles)| <= i < |client.roles| ==> client.roles[i] == client.role
      decreases |polls| - iterations
    {
      ghost var drainedBefore := events.drained;
      var batch := events.Dequeue();
      match batch {
        case Some(b) =>
          assert events.drained[before..] == drainedBefore[before..] + [b];
          ConcatAppend(drainedBefore[before..], b);
          ToTelemetryBatchAppend(Concat(drainedBefore[before..]), b);
          TrackBatch(client, b);
        case None =>
          // sleep: no observable effect in the model
      }
      iterations := iterations + 1;
    }
  }

  /** The unconfigured loop: only waits for shutdown; nothing is drained or tracked. */
  method IdleUntilShutdown(polls: seq<bool>) returns (iterations: nat)
    ensures iterations == PollsUntilShutdown(polls)
  {
    iterations := 0;
    while !IsShuttingDown(polls, iterations)
      invariant iterations <= PollsUntilShutdown(polls)
      decreases |polls| - iterations
    {
      // sleep: no observable effect in the model
      iterations := iterations + 1;
    }
  }

  /**
   * With a key: one client is constructed with that key and a five-second
   * flush interval, tagged with `roleName` before anything is tracked (every
   * record was tracked under that role), and
   * runs the write loop. Without one: no client and no track call, the queue
   * is left untouched, and the task ends once shutdown is observed.
   */
  method Start(roleName: string, polls: seq<bool>, appInsightsKey: Option<string>, events: EventsQueue)
    returns (client: TelemetryClient?, iterations: nat)
    requires events.Valid()
    modifies events
    ensures events.Valid() && events.history == old(events.history)
    ensures iterations == PollsUntilShutdown(polls)
    ensures client != null <==> appInsightsKey.Some?
    ensures appInsightsKey.None? ==> unchanged(events)
    ensures client != null ==>
      fresh(client) &&
      client.config == TelemetryConfig(appInsightsKey.value, FlushIntervalSeconds) &&
      client.role == Some(roleName) &&
      |client.roles| == |client.trace| &&
      (forall i :: 0 <= i < |client.roles| ==> client.roles[i] == Some(roleName)) &&
      |events.drained| >= |old(events.drained)| &&
      events.drained[..|old(events.drained)|] == old(events.drained) &&
      client.trace == ToTelemetryBatch(Concat(events.drained[|old(events.drained)|..])) &&
      (iterations > 0 ==> events.events == []) &&
      client.trace == (if iterations > 0 then ToTelemetryBatch(old(events.events)) else [])
  {
    if appInsightsKey.Some? {
      var c := new TelemetryClient.FromConfig(TelemetryConfig(appInsightsKey.value, FlushIntervalSeconds));
      c.SetRole(roleName);
      iterations := WriteLoop(c, polls, events);
      client := c;
    } else {
      iterations := IdleUntilShutdown(polls);
      client := null;
    }
  }
}
