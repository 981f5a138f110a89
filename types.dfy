/**
 * The SDK's records: the trace status enumeration, Span, Trace, TraceEvent
 * and TraceContext, and the default-filling their dataclass __post_init__
 * methods perform on construction.
 */
module Types {
  import opened Wrappers
  import opened Runtime

  /** Status of a trace or span. */
  datatype TraceStatus = Ok | Error | Timeout | Cancelled {
    /** The enum member's value, its wire string. */
    function Wire(): (w: string)
      ensures w == "ok" <==> this == Ok
      ensures w == "error" <==> this == Error
      ensures w == "timeout" <==> this == Timeout
      ensures w == "cancelled" <==> this == Cancelled
    {
      match this
      case Ok => "ok"
      case Error => "error"
      case Timeout => "timeout"
      case Cancelled => "cancelled"
    }
  }

  /** Every member of the enumeration, in declaration order. */
  const AllStatuses: seq<TraceStatus> := [Ok, Error, Timeout, Cancelled]

  /** TraceStatus(w): the member whose value is w, or None (ValueError). */
  function StatusFromWire(w: string): (r: Option<TraceStatus>)
    ensures r.Some? ==> r.value.Wire() == w
    ensures forall st: TraceStatus :: st.Wire() == w ==> r == Some(st)
  {
    if w == "ok" then Some(Ok)
    else if w == "error" then Some(Error)
    else if w == "timeout" then Some(Timeout)
    else if w == "cancelled" then Some(Cancelled)
    else None
  }

  /** The enumeration has exactly four members, with distinct wire strings. */
  lemma StatusMembers()
    ensures |AllStatuses| == 4
    ensures forall st: TraceStatus :: st in AllStatuses
    ensures forall i, j :: 0 <= i < j < |AllStatuses| ==> AllStatuses[i].Wire() != AllStatuses[j].Wire()
  {
    forall st: TraceStatus ensures st in AllStatuses {
      var k := match st case Ok => 0 case Error => 1 case Timeout => 2 case Cancelled => 3;
      assert AllStatuses[k] == st;
    }
  }

  /** The wire string identifies the member. */
  lemma StatusWireRoundTrip(st: TraceStatus)
    ensures StatusFromWire(st.Wire()) == Some(st)
  {
  }

  datatype Span = Span(
    spanId: string,
    traceId: string,
    parentSpanId: Option<string>,
    name: string,
    startTime: Time,
    endTime: Option<Time>,
    status: TraceStatus,
    attributes: Attributes,
    events: seq<Attributes>)

  datatype Trace = Trace(
    traceId: string,
    name: string,
    startTime: Time,
    endTime: Option<Time>,
    status: TraceStatus,
    spans: seq<Span>,
    attributes: Attributes,
    serviceName: Option<string>)

  datatype TraceEvent = TraceEvent(name: string, timestamp: Time, attributes: Attributes)

  datatype TraceContext = TraceContext(
    traceId: string,
    spanId: Option<string>,
    serviceName: Option<string>,
    attributes: Attributes)

  /** A None collection argument becomes a new empty one. */
  function OrEmptyMap(m: Option<Attributes>): Attributes {
    if m.Some? then m.value else map[]
  }

  /**
   * Span(...) followed by __post_init__: a falsy span_id is replaced by a
   * fresh uuid, None events and attributes by empty collections.
   */
  function NewSpan(
    spanId: Option<string>, traceId: string, parentSpanId: Option<string>, name: string,
    startTime: Time, endTime: Option<Time>, status: TraceStatus,
    attributes: Option<Attributes>, events: Option<seq<Attributes>>,
    freshId: Uuid): (s: Span)
    ensures s.spanId != ""
    ensures Present(spanId) ==> s.spanId == spanId.value
    ensures !Present(spanId) ==> s.spanId == freshId
    ensures attributes == None ==> s.attributes == map[]
    ensures attributes.Some? ==> s.attributes == attributes.value
    ensures events == None ==> s.events == []
    ensures events.Some? ==> s.events == events.value
    ensures s.traceId == traceId && s.parentSpanId == parentSpanId && s.name == name
    ensures s.startTime == startTime && s.endTime == endTime && s.status == status
  {
    Span(if Present(spanId) then spanId.value else freshId,
         traceId, parentSpanId, name, startTime, endTime, status,
         OrEmptyMap(attributes),
         if events.Some? then events.value else [])
  }

  /**
   * Trace(...) followed by __post_init__: a falsy trace_id is replaced by a
   * fresh uuid, None spans and attributes by empty collections.
   */
  function NewTrace(
    traceId: Option<string>, name: string, startTime: Time, endTime: Option<Time>,
    status: TraceStatus, spans: Option<seq<Span>>, attributes: Option<Attributes>,
    serviceName: Option<string>, freshId: Uuid): (t: Trace)
    ensures t.traceId != ""
    ensures Present(traceId) ==> t.traceId == traceId.value
    ensures !Present(traceId) ==> t.traceId == freshId
    ensures spans == None ==> t.spans == []
    ensures spans.Some? ==> t.spans == spans.value
    ensures attributes == None ==> t.attributes == map[]
    ensures attributes.Some? ==> t.attributes == attributes.value
    ensures t.name == name && t.startTime == startTime && t.endTime == endTime
    ensures t.status == status && t.serviceName == serviceName
  {
    Trace(if Present(traceId) then traceId.value else freshId,
          name, startTime, endTime, status,
          if spans.Some? then spans.value else [],
          OrEmptyMap(attributes), serviceName)
  }

  /** TraceEvent(...): only None attributes are filled in. */
  function NewTraceEvent(name: string, timestamp: Time, attributes: Option<Attributes>): (e: TraceEvent)
    ensures e.name == name && e.timestamp == timestamp
    ensures e.attributes == if attributes.Some? then attributes.value else map[]
  {
    TraceEvent(name, timestamp, OrEmptyMap(attributes))
  }

  /** TraceContext(...): only None attributes are filled in; trace_id is never generated. */
  function NewTraceContext(traceId: string, spanId: Option<string>, serviceName: Option<string>,
                           attributes: Option<Attributes>): (c: TraceContext)
    ensures c.traceId == traceId && c.spanId == spanId && c.serviceName == serviceName
    ensures c.attributes == if attributes.Some? then attributes.value else map[]
  {
    TraceContext(traceId, spanId, serviceName, OrEmptyMap(attributes))
  }

  /** Default-filling is idempotent: re-building a built span gives it back, whatever uuid is drawn. */
  lemma NewSpanIdempotent(s: Span, freshId: Uuid)
    requires s.spanId != ""
    ensures NewSpan(Some(s.spanId), s.traceId, s.parentSpanId, s.name, s.startTime, s.endTime,
                    s.status, Some(s.attributes), Some(s.events), freshId) == s
  {
  }
}
