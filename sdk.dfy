/**
 * The package's global client: init installs a new client, get_client hands
 * out the latest one or raises, and start_trace, end_trace and add_event
 * delegate to it.
 */
module Sdk {
  import opened Wrappers
  import opened Runtime
  import opened Types
  import opened Client

  /** The named parameters of init and of add_event, which their **kwargs cannot repeat. */
  const InitParams: seq<string> := ["endpoint", "api_key", "service_name"]
  const AddEventParams: seq<string> := ["trace_id", "name"]

  /** The RuntimeError get_client raises before init. */
  const NotInitialized: PyException :=
    PyException("RuntimeError", "Traceloop not initialized. Call traceloop.init() first.", true)

  /** The package module's state: the _default_client global. */
  class Traceloop {
    var defaultClient: Option<TraceloopClient>

    /** The package right after import: no client. */
    constructor ()
      ensures defaultClient == None
    {
      defaultClient := None;
    }

    /** The client objects the package holds. */
    function Held(): set<object>
      reads this
    {
      if defaultClient.Some? then {defaultClient.value} else {}
    }

    /**
     * init(endpoint, api_key, service_name, **kwargs): a keyword repeating
     * one of init's own parameters, or naming the client's self, is a
     * TypeError that leaves the default client as it was. Otherwise it
     * builds a client from exactly these arguments (the client ignores
     * every other keyword), makes it the default in place of any earlier
     * one, and returns it.
     */
    method Init(endpoint: string, apiKey: Option<string>, serviceName: Option<string>, kwargs: Attributes)
      returns (r: Result<TraceloopClient, PyException>)
      modifies this
      ensures BindClash("init", InitParams, kwargs).Some? ==>
        r == Failure(BindClash("init", InitParams, kwargs).value) && defaultClient == old(defaultClient)
      ensures BindClash("init", InitParams, kwargs).None? && "self" in kwargs ==>
        r == Failure(MultipleValuesFor("TraceloopClient.__init__", "self")) && defaultClient == old(defaultClient)
      ensures r.Success? <==> BindClash("init", InitParams, kwargs).None? && "self" !in kwargs
      ensures r.Success? ==> fresh(r.value) && defaultClient == Some(r.value)
      ensures r.Success? ==> r.value.endpoint == StripTrailingSlashes(endpoint) && r.value.apiKey == apiKey
      ensures r.Success? ==> r.value.serviceName == OrElse(serviceName, UnknownService)
      ensures r.Success? ==> r.value.headers == SessionHeaders(apiKey) && r.value.calls == []
    {
      var clash := BindClash("init", InitParams, kwargs);
      if clash.Some? {
        return Failure(clash.value);
      }
      if "self" in kwargs {
        return Failure(MultipleValuesFor("TraceloopClient.__init__", "self"));
      }
      var client := new TraceloopClient(endpoint, apiKey, serviceName);
      defaultClient := Some(client);
      r := Success(client);
    }

    /** get_client: the latest client, or the "not initialized" RuntimeError. */
    method GetClient() returns (r: Result<TraceloopClient, PyException>)
      ensures defaultClient == None ==> r == Failure(NotInitialized)
      ensures defaultClient.Some? ==> r == Success(defaultClient.value)
    {
      if defaultClient == None {
        r := Failure(NotInitialized);
      } else {
        r := Success(defaultClient.value);
      }
    }

    /**
     * start_trace(name, **attributes): an attribute named name cannot bind;
     * then get_client's error; then an attribute named self clashes with
     * the client method's own self; otherwise the client's start_trace.
     */
    method StartTrace(name: string, attributes: Attributes, traceId: Uuid, spanId: Uuid)
      returns (r: Result<TraceContext, PyException>)
      ensures "name" in attributes ==> r == Failure(MultipleValuesFor("start_trace", "name"))
      ensures "name" !in attributes && defaultClient == None ==> r == Failure(NotInitialized)
      ensures "name" !in attributes && defaultClient.Some? && "self" in attributes ==>
        r == Failure(MultipleValuesFor("TraceloopClient.start_trace", "self"))
      ensures r.Success? <==> "name" !in attributes && "self" !in attributes && defaultClient.Some?
      ensures r.Success? ==> r == Success(defaultClient.value.StartTrace(name, attributes, traceId, spanId))
    {
      if "name" in attributes {
        return Failure(MultipleValuesFor("start_trace", "name"));
      }
      var client := GetClient();
      if client.Failure? {
        return Failure(client.error);
      }
      if "self" in attributes {
        return Failure(MultipleValuesFor("TraceloopClient.start_trace", "self"));
      }
      r := Success(client.value.StartTrace(name, attributes, traceId, spanId));
    }

    /** end_trace: the default client's end_trace, or the error get_client raises. */
    method EndTrace(traceId: string, status: TraceStatus) returns (r: Result<bool, PyException>)
      modifies Held()
      ensures defaultClient == old(defaultClient)
      ensures defaultClient == None ==> r == Failure(NotInitialized)
      ensures defaultClient.Some? ==> r == Success(true)
      ensures defaultClient.Some? ==> defaultClient.value.calls == old(defaultClient.value.calls) + [EndTraceCall(traceId, status)]
    {
      var client := GetClient();
      match client
      case Failure(e) => r := Failure(e);
      case Success(c) =>
        var ok := c.EndTrace(traceId, status);
        r := Success(ok);
    }

    /**
     * add_event(trace_id, name, **attributes): an attribute repeating
     * trace_id or name cannot bind; then get_client's error; then an
     * attribute named self clashes with the client method's own self;
     * otherwise the client's add_event. Only the last logs a call.
     */
    method AddEvent(traceId: string, name: string, attributes: Attributes) returns (r: Result<bool, PyException>)
      modifies Held()
      ensures defaultClient == old(defaultClient)
      ensures BindClash("add_event", AddEventParams, attributes).Some? ==>
        r == Failure(BindClash("add_event", AddEventParams, attributes).value)
      ensures BindClash("add_event", AddEventParams, attributes).None? && defaultClient == None ==>
        r == Failure(NotInitialized)
      ensures BindClash("add_event", AddEventParams, attributes).None? && defaultClient.Some? && "self" in attributes ==>
        r == Failure(MultipleValuesFor("TraceloopClient.add_event", "self"))
      ensures r.Success? <==>
        BindClash("add_event", AddEventParams, attributes).None? && "self" !in attributes && defaultClient.Some?
      ensures r.Success? ==> r.value
      ensures defaultClient.Some? ==>
        (defaultClient.value.calls ==
         old(defaultClient.value.calls) + (if r.Success? then [AddEventCall(traceId, name, attributes)] else []))
    {
      var clash := BindClash("add_event", AddEventParams, attributes);
      if clash.Some? {
        return Failure(clash.value);
      }
      var client := GetClient();
      if client.Failure? {
        return Failure(client.error);
      }
      if "self" in attributes {
        return Failure(MultipleValuesFor("TraceloopClient.add_event", "self"));
      }
      var ok := client.value.AddEvent(traceId, name, attributes);
      r := Success(ok);
    }
  }

  /** A second init replaces the first: get_client returns the second client, a different object. */
  method InitTwice(sdk: Traceloop, first: string, second: string)
    returns (c1: TraceloopClient, c2: TraceloopClient, r: Result<TraceloopClient, PyException>)
    modifies sdk
    ensures c1 != c2
    ensures sdk.defaultClient == Some(c2) && r == Success(c2)
    ensures c2.endpoint == StripTrailingSlashes(second)
  {
    var r1 := sdk.Init(first, None, None, map[]);
    c1 := r1.value;
    var r2 := sdk.Init(second, None, None, map[]);
    c2 := r2.value;
    r := sdk.GetClient();
  }

  /** Scenario: init with the default endpoint, and the client keeps it unchanged. */
  method InitDefaultEndpoint(sdk: Traceloop) returns (client: TraceloopClient)
    modifies sdk
    ensures client.endpoint == DefaultEndpoint
    ensures client.serviceName == UnknownService
  {
    var r := sdk.Init(DefaultEndpoint, None, None, map[]);
    client := r.value;
    StripTrailingSlashesKeeps(DefaultEndpoint);
  }
}
