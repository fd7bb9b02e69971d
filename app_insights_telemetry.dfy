/**
 * The recorder: the public object application code holds. It owns the
 * shared queue, the instrumentation key read from the environment and the
 * role name, records events into the queue and starts the writer.
 *
 * Each record call spawns a task that enqueues the event; here the enqueue
 * happens as one atomic step within the call.
 */
module AppInsights {
  import opened Wrappers
  import opened TelemetryEvents
  import opened EventQueue
  import opened TelemetryWriter
  import DecimalText

  class AppInsightsTelemetry {
    const events: EventsQueue
    const appInsightsKey: Option<string>
    const roleName: string

    ghost predicate Valid()
      reads this, events
    {
      events.Valid()
    }

    /**
     * `environmentKey` is the outcome of reading APPINSIGHTS_INSTRUMENTATIONKEY:
     * `Some` exactly when the lookup succeeded. The queue starts empty.
     */
    constructor (roleName: string, environmentKey: Option<string>)
      ensures Valid() && fresh(events)
      ensures events.events == [] && events.history == [] && events.drained == []
      ensures appInsightsKey == environmentKey && this.roleName == roleName
    {
      events := new EventsQueue();
      appInsightsKey := environmentKey;
      this.roleName := roleName;
    }

    /** Queues exactly the server event with these fields, whether or not a key is configured. */
    method WriteHttpRequestDuration(url: string, httpMethod: string, statusCode: u16, duration: nat)
      requires Valid()
      modifies events
      ensures Valid()
      ensures events.events == old(events.events) +
        [HttpServerEvent(url := url, statusCode := statusCode, duration := duration, httpMethod := httpMethod)]
      ensures events.history == old(events.history) +
        [HttpServerEvent(url := url, statusCode := statusCode, duration := duration, httpMethod := httpMethod)]
      ensures events.drained == old(events.drained)
    {
      var event := HttpServerEvent(url := url, statusCode := statusCode, duration := duration, httpMethod := httpMethod);
      events.Enqueue(event);
    }

    /** Queues exactly the dependency event with these fields, whether or not a key is configured. */
    method WriteDependencyRequestDuration(name: string, dependencyType: string, target: string,
                                          success: bool, duration: nat)
      requires Valid()
      modifies events
      ensures Valid()
      ensures events.events == old(events.events) +
        [HttpDependencyEvent(name := name, dependencyType := dependencyType, target := target,
                             success := success, duration := duration)]
      ensures events.history == old(events.history) +
        [HttpDependencyEvent(name := name, dependencyType := dependencyType, target := target,
                             success := success, duration := duration)]
      ensures events.drained == old(events.drained)
    {
      var event := HttpDependencyEvent(name := name, dependencyType := dependencyType, target := target,
                                       success := success, duration := duration);
      events.Enqueue(event);
    }

    /** Runs the writer with the stored role name, the stored key and this object's own queue. */
    method Start(polls: seq<bool>) returns (client: TelemetryClient?, iterations: nat)
      requires Valid()
      modifies events
      ensures Valid() && events.history == old(events.history)
      ensures iterations == PollsUntilShutdown(polls)
      ensures client != null <==> appInsightsKey.Some?
      ensures appInsightsKey.None? ==> unchanged(events)
      ensures client != null ==>
        fresh(client) &&
        client.config == TelemetryConfig(appInsightsKey.value, FlushIntervalSeconds) &&
        client.role == Some(roleName) &&
        |client.roles| == |client.trace| &&
        (forall i :: 0 <= i < |client.roles| ==> client.roles[i] == Some(roleName)) &&
        |events.drained| >= |old(events.drained)| &&
        events.drained[..|old(events.drained)|] == old(events.drained) &&
        client.trace == ToTelemetryBatch(Concat(events.drained[|old(events.drained)|..])) &&
        (iterations > 0 ==> events.events == []) &&
        client.trace == (if iterations > 0 then ToTelemetryBatch(old(events.events)) else [])
    {
      client, iterations := TelemetryWriter.Start(roleName, polls, appInsightsKey, events);
    }

    /** The `MyTelemetry` adapter for requests: `uri` is recorded as the url, `httpCode` as the status code. */
    method TrackUrlDuration(httpMethod: string, uri: string, httpCode: u16, duration: nat)
      requires Valid()
      modifies events
      ensures Valid()
      ensures events.events == old(events.events) +
        [HttpServerEvent(url := uri, statusCode := httpCode, duration := duration, httpMethod := httpMethod)]
      ensures events.history == old(events.history) +
        [HttpServerEvent(url := uri, statusCode := httpCode, duration := duration, httpMethod := httpMethod)]
      ensures events.drained == old(events.drained)
    {
      WriteHttpRequestDuration(uri, httpMethod, httpCode, duration);
    }

    /**
     * The `MyTelemetry` adapter for dependencies: `host` is recorded as the
     * name, `protocol` as the dependency type, `resource` as the target;
     * `success` and `duration` pass through.
     */
    method TrackDependencyDuration(host: string, protocol: string, resource: string,
                                   success: bool, duration: nat)
      requires Valid()
      modifies events
      ensures Valid()
      ensures events.events == old(events.events) +
        [HttpDependencyEvent(name := host, dependencyType := protocol, target := resource,
                             success := success, duration := duration)]
      ensures events.history == old(events.history) +
        [HttpDependencyEvent(name := host, dependencyType := protocol, target := resource,
                             success := success, duration := duration)]
      ensures events.drained == old(events.drained)
    {
      WriteDependencyRequestDuration(host, protocol, resource, success, duration);
    }
  }

  /**
   * End to end for one request: a recorder with a key records one request
   * through `track_url_duration`, and the writer runs one iteration. The
   * client then holds exactly one request record, with the same method, uri
   * and duration, whose response code reads back as the status code, and
   * tracked under the recorder's role.
   */
  method RequestForwarding(roleName: string, key: string,
                           httpMethod: string, uri: string, httpCode: u16, duration: nat)
    returns (client: TelemetryClient?)
    ensures client != null
    ensures client.trace == [RequestTelemetry(httpMethod, uri, duration, DecimalText.ToDecimal(httpCode as nat))]
    ensures DecimalText.ParseDecimal(client.trace[0].responseCode) == Some(httpCode as nat)
    ensures client.roles == [Some(roleName)]
  {
    var telemetry := new AppInsightsTelemetry(roleName, Some(key));
    telemetry.TrackUrlDuration(httpMethod, uri, httpCode, duration);
    var iterations;
    client, iterations := telemetry.Start([false]);
    DecimalText.ParseToDecimal(httpCode as nat);
  }

  /**
   * End to end for one dependency call: a recorder with a key records one
   * call through `track_dependency_duration`, and the writer runs one
   * iteration. The client then holds exactly one dependency record named
   * after the host, typed by the protocol and aimed at the resource, and
   * tracked under the recorder's role.
   */
  method DependencyForwarding(roleName: string, key: string,
                              host: string, protocol: string, resource: string, success: bool, duration: nat)
    returns (client: TelemetryClient?)
    ensures client != null
    ensures client.trace == [RemoteDependencyTelemetry(name := host, dependencyType := protocol, duration := duration,
                                                       target := resource, success := success)]
    ensures client.roles == [Some(roleName)]
  {
    var telemetry := new AppInsightsTelemetry(roleName, Some(key));
    telemetry.TrackDependencyDuration(host, protocol, resource, success, duration);
    var iterations;
    client, iterations := telemetry.Start([false]);
  }
}
