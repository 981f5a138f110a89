/**
 * The per-flow context store: the thread-local slot holding the current
 * trace context and the side table of span descriptors, for one flow.
 */
module Context {
  import opened Wrappers
  import opened Runtime
  import opened Types

  /** The lightweight record create_span_context keeps for a span. */
  datatype SpanDescriptor = SpanDescriptor(name: string, traceId: string, spanId: string)

  /**
   * The flow's storage slot. An absent `current_trace` attribute is None;
   * an absent `spans` table is the empty map (every lookup in it fails).
   */
  class ContextStore {
    var currentTrace: Option<TraceContext>
    var spans: map<string, SpanDescriptor>

    /** A flow that has not touched the store yet. */
    constructor ()
      ensures currentTrace == None && spans == map[]
    {
      currentTrace := None;
      spans := map[];
    }

    /** get_current_trace: reads the slot; None when nothing was set. */
    function GetCurrentTrace(): (c: Option<TraceContext>)
      reads this
      ensures c == currentTrace
    {
      currentTrace
    }

    /** set_current_trace: overwrites the slot; the earlier value is not kept anywhere. */
    method SetCurrentTrace(c: TraceContext)
      modifies this
      ensures currentTrace == Some(c)
      ensures GetCurrentTrace() == Some(c)
      ensures spans == old(spans)
    {
      currentTrace := Some(c);
    }

    /**
     * create_span_context: records a descriptor under the fresh span id
     * (the uuid drawn by the call) and returns that id.
     */
    method CreateSpanContext(name: string, traceId: string, freshId: Uuid) returns (spanId: string)
      modifies this
      ensures spanId == freshId
      ensures spans == old(spans)[spanId := SpanDescriptor(name, traceId, spanId)]
      ensures GetSpanContext(spanId) == Some(SpanDescriptor(name, traceId, spanId))
      ensures freshId !in old(spans) ==> |spans| == |old(spans)| + 1
      ensures currentTrace == old(currentTrace)
    {
      spanId := freshId;
      ghost var before := spans;
      spans := spans[spanId := SpanDescriptor(name, traceId, spanId)];
      if freshId !in before {
        assert spans.Keys == before.Keys + {freshId};
      }
    }

    /** get_span_context: the descriptor recorded under spanId, or None. */
    function GetSpanContext(spanId: string): (d: Option<SpanDescriptor>)
      reads this
      ensures d.Some? <==> spanId in spans
      ensures d.Some? ==> d.value == spans[spanId]
    {
      if spanId in spans then Some(spans[spanId]) else None
    }

    /**
     * set_trace_attribute: sets key on the current trace's attributes,
     * overwriting an earlier value; without a current trace nothing changes.
     */
    method SetTraceAttribute(key: string, value: Value)
      modifies this
      ensures old(currentTrace) == None ==> currentTrace == None
      ensures old(currentTrace).Some? ==>
        currentTrace == Some(old(currentTrace).value.(attributes := old(currentTrace).value.attributes[key := value]))
      ensures spans == old(spans)
    {
      var trace := GetCurrentTrace();
      if trace.Some? {
        currentTrace := Some(trace.value.(attributes := trace.value.attributes[key := value]));
      }
    }

    /** clear_context: deletes the slot and the span table; the state after does not depend on the state before. */
    method ClearContext()
      modifies this
      ensures currentTrace == None && spans == map[]
      ensures forall id :: GetSpanContext(id) == None
    {
      currentTrace := None;
      spans := map[];
    }
  }
}
