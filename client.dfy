/**
 * The SDK client: its configuration, the local trace-lifecycle calls, the
 * JSON document send_trace posts and the boolean it makes of the reply.
 */
module Client {
  import opened Wrappers
  import opened Runtime
  import opened Types
  import opened Json

  const DefaultEndpoint: string := "http://localhost:8080"
  const UnknownService: string := "unknown-service"
  const UserAgent: string := "traceloop-python-sdk/0.1.0"
  const TracesPath: string := "/api/v1/traces"

  /** endpoint.rstrip("/") */
  function StripTrailingSlashes(s: string): (r: string)
    ensures |r| <= |s| && r == s[..|r|]
    ensures r == [] || r[|r| - 1] != '/'
    ensures forall i | |r| <= i < |s| :: s[i] == '/'
  {
    if s != [] && s[|s| - 1] == '/' then StripTrailingSlashes(s[..|s| - 1]) else s
  }

  /** Stripping is idempotent, and an endpoint without a trailing slash is kept as given. */
  lemma StripTrailingSlashesKeeps(s: string)
    ensures StripTrailingSlashes(StripTrailingSlashes(s)) == StripTrailingSlashes(s)
    ensures (s == [] || s[|s| - 1] != '/') ==> StripTrailingSlashes(s) == s
    ensures StripTrailingSlashes(DefaultEndpoint) == DefaultEndpoint
  {
  }

  /**
   * The headers the client adds to its session: Authorization exactly when
   * the api key is truthy, and always Content-Type and User-Agent.
   */
  function SessionHeaders(apiKey: Option<string>): (h: map<string, string>)
    ensures ("Authorization" in h) <==> Present(apiKey)
    ensures Present(apiKey) ==> h["Authorization"] == "Bearer " + apiKey.value
    ensures "Content-Type" in h && h["Content-Type"] == "application/json"
    ensures "User-Agent" in h && h["User-Agent"] == UserAgent
    ensures h.Keys <= {"Authorization", "Content-Type", "User-Agent"}
  {
    (if Present(apiKey) then map["Authorization" := "Bearer " + apiKey.value] else map[])
      + map["Content-Type" := "application/json", "User-Agent" := UserAgent]
  }

  /** A call to one of the client's bookkeeping stubs, in the order made. */
  datatype ClientCall =
    | EndTraceCall(traceId: string, status: TraceStatus)
    | AddEventCall(traceId: string, name: string, attributes: Attributes)
    | UpdateSpanCall(spanId: string, attributes: Attributes, status: TraceStatus)

  /** What the HTTP POST gives back: a response with its status code, or a raised transport error. */
  datatype HttpOutcome = Response(statusCode: int) | TransportError(message: string)

  /** The POST send_trace makes: the URL and the JSON body. */
  datatype Request = Request(url: string, body: Json)

  class TraceloopClient {
    const endpoint: string
    const apiKey: Option<string>
    const serviceName: string
    /** The headers this client adds to its session. */
    const headers: map<string, string>
    /** Every call of end_trace, add_event and update_span, oldest first. */
    var calls: seq<ClientCall>

    constructor (endpoint: string, apiKey: Option<string>, serviceName: Option<string>)
      ensures this.endpoint == StripTrailingSlashes(endpoint)
      ensures this.apiKey == apiKey
      ensures this.serviceName == OrElse(serviceName, UnknownService)
      ensures headers == SessionHeaders(apiKey)
      ensures calls == []
    {
      this.endpoint := StripTrailingSlashes(endpoint);
      this.apiKey := apiKey;
      this.serviceName := OrElse(serviceName, UnknownService);
      calls := [];
      var h: map<string, string> := map[];
      if Present(apiKey) {
        h := h["Authorization" := "Bearer " + apiKey.value];
      }
      h := h + map["Content-Type" := "application/json", "User-Agent" := UserAgent];
      headers := h;
    }

    /**
     * start_trace: a context with the two uuids drawn by the call and this
     * client's service name, whose attributes are trace.name and
     * service.name overridden by the caller's attributes. Nothing is sent.
     */
    function StartTrace(name: string, attributes: Attributes, traceId: Uuid, spanId: Uuid): (c: TraceContext)
      ensures c.traceId == traceId && c.traceId != ""
      ensures c.spanId == Some(spanId) && c.serviceName == Some(serviceName)
      ensures c.attributes.Keys == {"trace.name", "service.name"} + attributes.Keys
      ensures forall k | k in attributes :: c.attributes[k] == attributes[k]
      ensures "trace.name" !in attributes ==> c.attributes["trace.name"] == Str(name)
      ensures "service.name" !in attributes ==> c.attributes["service.name"] == Str(serviceName)
    {
      NewTraceContext(traceId, Some(spanId), Some(serviceName),
                      Some(map["trace.name" := Str(name), "service.name" := Str(serviceName)] + attributes))
    }

    /** end_trace: a bookkeeping stub that always succeeds. */
    method EndTrace(traceId: string, status: TraceStatus) returns (ok: bool)
      modifies this`calls
      ensures ok
      ensures calls == old(calls) + [EndTraceCall(traceId, status)]
    {
      calls := calls + [EndTraceCall(traceId, status)];
      ok := true;
    }

    /** add_event: a bookkeeping stub that always succeeds. */
    method AddEvent(traceId: string, name: string, attributes: Attributes) returns (ok: bool)
      modifies this`calls
      ensures ok
      ensures calls == old(calls) + [AddEventCall(traceId, name, attributes)]
    {
      calls := calls + [AddEventCall(traceId, name, attributes)];
      ok := true;
    }

    /** update_span: a bookkeeping stub that always succeeds. */
    method UpdateSpan(spanId: string, attributes: Attributes, status: TraceStatus) returns (ok: bool)
      modifies this`calls
      ensures ok
      ensures calls == old(calls) + [UpdateSpanCall(spanId, attributes, status)]
    {
      calls := calls + [UpdateSpanCall(spanId, attributes, status)];
      ok := true;
    }

    /** The request send_trace makes, or None when serialising the body raises. */
    function TraceRequest(trace: Trace): (r: Option<Request>)
      ensures r.Some? <==> EncodeTrace(trace).Some?
      ensures r.Some? ==> r.value.url == endpoint + TracesPath && r.value.body == EncodeTrace(trace).value
    {
      var body :- EncodeTrace(trace);
      Some(Request(endpoint + TracesPath, body))
    }

    /**
     * send_trace, given what the POST gives back: true exactly when the
     * request was made and answered 200; never raises.
     */
    function SendTrace(trace: Trace, reply: HttpOutcome): (sent: bool)
      ensures sent ==> EncodeTrace(trace).Some? && reply == Response(200)
      ensures EncodeTrace(trace).Some? && reply == Response(200) ==> sent
    {
      TraceRequest(trace).Some? && reply.Response? && reply.statusCode == 200
    }
  }

  // ---------------------------------------------------------------
  // The body of send_trace

  const SpanFields: set<string> :=
    {"span_id", "trace_id", "parent_span_id", "name", "start_time", "end_time", "status", "attributes", "events"}
  const TraceFields: set<string> :=
    {"trace_id", "name", "start_time", "end_time", "status", "spans", "attributes", "service_name"}

  /** An optional string as JSON: its text, or null. */
  function OptionalString(s: Option<string>): Json {
    if s.Some? then JStr(s.value) else JNull
  }

  /** An optional datetime as JSON: its isoformat(), or null. */
  function OptionalTime(t: Option<Time>): Json {
    if t.Some? then JStr(t.value.iso) else JNull
  }

  /** A span's list of event dictionaries, as a Python value. */
  function EventsValue(events: seq<Attributes>): Value {
    List(seq(|events|, i requires 0 <= i < |events| => Dict(events[i])))
  }

  /** The dictionary built for one span, encoded; None when its attributes or events cannot be encoded. */
  function EncodeSpan(s: Span): (r: Option<Json>)
    ensures r.Some? <==> !HasObject(Dict(s.attributes)) && !HasObject(EventsValue(s.events))
    ensures r.Some? ==> r.value.JObj? && r.value.fields.Keys == SpanFields
    ensures r.Some? ==> r.value.fields["span_id"] == JStr(s.spanId) && r.value.fields["trace_id"] == JStr(s.traceId)
    ensures r.Some? ==> r.value.fields["name"] == JStr(s.name) && r.value.fields["start_time"] == JStr(s.startTime.iso)
    ensures r.Some? ==> (r.value.fields["parent_span_id"] == JNull <==> s.parentSpanId == None)
    ensures r.Some? && s.parentSpanId.Some? ==> r.value.fields["parent_span_id"] == JStr(s.parentSpanId.value)
    ensures r.Some? ==> (r.value.fields["end_time"] == JNull <==> s.endTime == None)
    ensures r.Some? && s.endTime.Some? ==> r.value.fields["end_time"] == JStr(s.endTime.value.iso)
    ensures r.Some? ==> r.value.fields["status"] == JStr(s.status.Wire())
    ensures r.Some? ==> r.value.fields["attributes"] == Encode(Dict(s.attributes)).value
    ensures r.Some? ==> r.value.fields["events"] == Encode(EventsValue(s.events)).value
  {
    var attributes :- Encode(Dict(s.attributes));
    var events :- Encode(EventsValue(s.events));
    Some(JObj(map[
      "span_id" := JStr(s.spanId),
      "trace_id" := JStr(s.traceId),
      "parent_span_id" := OptionalString(s.parentSpanId),
      "name" := JStr(s.name),
      "start_time" := JStr(s.startTime.iso),
      "end_time" := OptionalTime(s.endTime),
      "status" := JStr(s.status.Wire()),
      "attributes" := attributes,
      "events" := events]))
  }

  /** The list of span dictionaries, encoded span by span; None when any span cannot be encoded. */
  function EncodeSpans(spans: seq<Span>): (r: Option<seq<Json>>)
    ensures r.Some? <==> forall i | 0 <= i < |spans| :: EncodeSpan(spans[i]).Some?
    ensures r.Some? ==> |r.value| == |spans| && forall i | 0 <= i < |spans| :: EncodeSpan(spans[i]) == Some(r.value[i])
  {
    if forall i | 0 <= i < |spans| :: EncodeSpan(spans[i]).Some? then
      Some(seq(|spans|, i requires 0 <= i < |spans| => EncodeSpan(spans[i]).value))
    else
      None
  }

  /** The trace_data dictionary of send_trace, encoded; None when json would raise. */
  function EncodeTrace(t: Trace): (r: Option<Json>)
    ensures r.Some? ==> r.value.JObj? && r.value.fields.Keys == TraceFields
    ensures r.Some? ==> r.value.fields["trace_id"] == JStr(t.traceId) && r.value.fields["name"] == JStr(t.name)
    ensures r.Some? ==> r.value.fields["start_time"] == JStr(t.startTime.iso)
    ensures r.Some? ==> Encode(Dict(t.attributes)) == Some(r.value.fields["attributes"])
    ensures r.Some? ==> (r.value.fields["service_name"] == JNull <==> t.serviceName == None)
    ensures r.Some? && t.endTime.Some? ==> r.value.fields["end_time"] == JStr(t.endTime.value.iso)
    ensures r.Some? && t.serviceName.Some? ==> r.value.fields["service_name"] == JStr(t.serviceName.value)
    ensures r.Some? ==> (r.value.fields["end_time"] == JNull <==> t.endTime == None)
    ensures r.Some? ==> r.value.fields["status"] == JStr(t.status.Wire())
    ensures r.Some? ==> var spans := r.value.fields["spans"];
      && spans.JArr? && |spans.items| == |t.spans|
      && forall i | 0 <= i < |t.spans| :: EncodeSpan(t.spans[i]) == Some(spans.items[i])
    ensures r.Some? <==> (forall i | 0 <= i < |t.spans| :: EncodeSpan(t.spans[i]).Some?)
                         && !HasObject(Dict(t.attributes))
  {
    var spans :- EncodeSpans(t.spans);
    var attributes :- Encode(Dict(t.attributes));
    Some(JObj(map[
      "trace_id" := JStr(t.traceId),
      "name" := JStr(t.name),
      "start_time" := JStr(t.startTime.iso),
      "end_time" := OptionalTime(t.endTime),
      "status" := JStr(t.status.Wire()),
      "spans" := JArr(spans),
      "attributes" := attributes,
      "service_name" := OptionalString(t.serviceName)]))
  }

  // ---------------------------------------------------------------
  // Reading the body back

  function AsString(j: Json): Option<string> {
    if j.JStr? then Some(j.s) else None
  }

  function AsOptionalString(j: Json): Option<Option<string>> {
    match j
    case JNull => Some(None)
    case JStr(s) => Some(Some(s))
    case _ => None
  }

  function AsOptionalTime(j: Json): Option<Option<Time>> {
    match j
    case JNull => Some(None)
    case JStr(s) => Some(Some(Time(s)))
    case _ => None
  }

  function AsStatus(j: Json): Option<TraceStatus> {
    if j.JStr? then StatusFromWire(j.s) else None
  }

  function AsAttributes(j: Json): Option<Attributes> {
    match Decode(j)
    case Dict(m) => Some(m)
    case _ => None
  }

  function AsEvents(j: Json): Option<seq<Attributes>> {
    match Decode(j)
    case List(items) =>
      if forall i | 0 <= i < |items| :: items[i].Dict?
      then Some(seq(|items|, i requires 0 <= i < |items| => items[i].entries))
      else None
    case _ => None
  }

  /** Reads a span dictionary back. */
  function DecodeSpan(j: Json): Option<Span> {
    if !j.JObj? || !(SpanFields <= j.fields.Keys) then None
    else
      var f := j.fields;
      var spanId :- AsString(f["span_id"]);
      var traceId :- AsString(f["trace_id"]);
      var parent :- AsOptionalString(f["parent_span_id"]);
      var name :- AsString(f["name"]);
      var start :- AsString(f["start_time"]);
      var end :- AsOptionalTime(f["end_time"]);
      var status :- AsStatus(f["status"]);
      var attributes :- AsAttributes(f["attributes"]);
      var events :- AsEvents(f["events"]);
      Some(Span(spanId, traceId, parent, name, Time(start), end, status, attributes, events))
  }

  /** Reads a trace dictionary back. */
  function DecodeTrace(j: Json): Option<Trace> {
    if !j.JObj? || !(TraceFields <= j.fields.Keys) || !j.fields["spans"].JArr? then None
    else
      var f := j.fields;
      var items := f["spans"].items;
      var traceId :- AsString(f["trace_id"]);
      var name :- AsString(f["name"]);
      var start :- AsString(f["start_time"]);
      var end :- AsOptionalTime(f["end_time"]);
      var status :- AsStatus(f["status"]);
      var attributes :- AsAttributes(f["attributes"]);
      var serviceName :- AsOptionalString(f["service_name"]);
      if forall i | 0 <= i < |items| :: DecodeSpan(items[i]).Some? then
        var spans := seq(|items|, i requires 0 <= i < |items| => DecodeSpan(items[i]).value);
        Some(Trace(traceId, name, Time(start), end, status, spans, attributes, serviceName))
      else
        None
  }

  /** The span's attributes and events hold only values json.loads gives back as themselves. */
  predicate LoadsBack(s: Span) {
    Native(Dict(s.attributes)) && Native(EventsValue(s.events))
  }

  /** A span's dictionary reads back as the span. */
  lemma SpanRoundTrip(s: Span)
    requires LoadsBack(s)
    ensures EncodeSpan(s).Some? && DecodeSpan(EncodeSpan(s).value) == Some(s)
  {
    DecodeEncode(Dict(s.attributes));
    DecodeEncode(EventsValue(s.events));
    StatusWireRoundTrip(s.status);
    var f := EncodeSpan(s).value.fields;
    var items := EventsValue(s.events).items;
    assert Decode(f["events"]) == List(items);
    assert seq(|items|, i requires 0 <= i < |items| => items[i].entries) == s.events;
    assert AsEvents(f["events"]) == Some(s.events);
  }

  /**
   * The body send_trace posts reads back as the trace: same trace_id, the
   * same spans in the same order, each with its attributes and events.
   */
  lemma TraceRoundTrip(t: Trace)
    requires Native(Dict(t.attributes))
    requires forall i | 0 <= i < |t.spans| :: LoadsBack(t.spans[i])
    ensures EncodeTrace(t).Some? && DecodeTrace(EncodeTrace(t).value) == Some(t)
  {
    DecodeEncode(Dict(t.attributes));
    StatusWireRoundTrip(t.status);
    forall i | 0 <= i < |t.spans| ensures EncodeSpan(t.spans[i]).Some? {
      SpanRoundTrip(t.spans[i]);
    }
    var items := EncodeTrace(t).value.fields["spans"].items;
    forall i | 0 <= i < |items| ensures DecodeSpan(items[i]) == Some(t.spans[i]) {
      SpanRoundTrip(t.spans[i]);
    }
    assert seq(|items|, i requires 0 <= i < |items| => DecodeSpan(items[i]).value) == t.spans;
  }
}
