/**
 * The instrumentation wrapper: what a function decorated with trace(...)
 * does when called, and the trace_agent and trace_llm factories, which only
 * choose the span name and seed attributes before handing over to trace.
 *
 * The wrapped callable is abstract: its metadata, the (parameter, value)
 * pairs inspect.signature binds for the call (or the TypeError binding
 * raises), and what the call does (returns a value or raises).
 */
module Decorators {
  import opened Wrappers
  import opened Runtime
  import opened Types
  import opened Context
  import opened Client
  import opened Sdk

  /** __name__, __module__ and __qualname__ of the wrapped function. */
  datatype FuncMeta = FuncMeta(name: string, moduleName: string, qualname: string)

  /** sig.bind(*args, **kwargs) with apply_defaults(): the bound pairs in parameter order, or the TypeError message. */
  datatype Binding = Bound(args: seq<(string, Value)>) | BindError(message: string)

  /** What calling the function does: return a value or raise. */
  datatype Outcome = Return(value: Value) | Raise(exc: PyException)

  /** The arguments given to trace(...). */
  datatype TraceConfig = TraceConfig(
    name: Option<string>,
    captureArgs: bool,
    captureResult: bool,
    ignoreErrors: bool,
    spanAttributes: Attributes)

  /** trace() with its defaults. */
  const DefaultTrace: TraceConfig := TraceConfig(None, true, true, false, map[])

  /** The uuids one call may draw: a trace id and root span id if it starts a trace, and its own span id. */
  datatype CallIds = CallIds(traceId: Uuid, rootSpanId: Uuid, spanId: Uuid)

  /** The span name: the configured name when truthy, else "<module>.<qualname>". */
  function SpanName(cfg: TraceConfig, f: FuncMeta): (n: string)
    ensures Present(cfg.name) ==> n == cfg.name.value
    ensures !Present(cfg.name) ==> n == f.moduleName + "." + f.qualname
  {
    OrElse(cfg.name, f.moduleName + "." + f.qualname)
  }

  /** The function metadata, overridden by the decorator's extra attributes. */
  function SeedAttributes(f: FuncMeta, extra: Attributes): (a: Attributes)
    ensures a.Keys == {"function.name", "function.module", "function.qualname"} + extra.Keys
    ensures forall k | k in extra :: a[k] == extra[k]
    ensures "function.name" !in extra ==> a["function.name"] == Str(f.name)
    ensures "function.module" !in extra ==> a["function.module"] == Str(f.moduleName)
    ensures "function.qualname" !in extra ==> a["function.qualname"] == Str(f.qualname)
  {
    map["function.name" := Str(f.name),
        "function.module" := Str(f.moduleName),
        "function.qualname" := Str(f.qualname)] + extra
  }

  const ArgPrefix: string := "function.args."

  /** The key an argument is captured under: its value if scalar, else its type name. */
  function ArgKey(param: string, v: Value): string {
    if IsScalar(v) then ArgPrefix + param else ArgPrefix + param + ".type"
  }

  function ArgValue(v: Value): Value {
    if IsScalar(v) then v else Str(TypeName(v))
  }

  /** The attribute map after capturing each bound argument in turn. */
  function CaptureArgs(a: Attributes, args: seq<(string, Value)>): Attributes
    decreases |args|
  {
    if args == [] then a
    else CaptureArgs(a[ArgKey(args[0].0, args[0].1) := ArgValue(args[0].1)], args[1..])
  }

  /** Python parameter names are identifiers: non-empty, without dots. */
  predicate IsParamName(p: string) {
    p != "" && '.' !in p
  }

  predicate DistinctParams(args: seq<(string, Value)>) {
    forall i, j | 0 <= i < j < |args| :: args[i].0 != args[j].0
  }

  /** The keys bound arguments are captured under. */
  function ArgKeys(args: seq<(string, Value)>): set<string> {
    set i | 0 <= i < |args| :: ArgKey(args[i].0, args[i].1)
  }

  /** Different parameters are captured under different keys. */
  lemma ArgKeyInjective(p: string, v: Value, q: string, w: Value)
    requires IsParamName(p) && IsParamName(q)
    requires ArgKey(p, v) == ArgKey(q, w)
    ensures p == q
  {
    var k := ArgKey(p, v);
    assert (ArgPrefix + q + ".type")[|ArgPrefix| + |q|] == '.';
    assert (ArgPrefix + p + ".type")[|ArgPrefix| + |p|] == '.';
    if IsScalar(v) == IsScalar(w) {
      assert p == k[|ArgPrefix|..|ArgPrefix| + |p|];
      assert q == k[|ArgPrefix|..|ArgPrefix| + |q|];
    }
  }

  /** The capture keys of a non-empty argument list: the first one's, and the rest's. */
  lemma ArgKeysCons(args: seq<(string, Value)>)
    requires args != []
    ensures ArgKeys(args) == {ArgKey(args[0].0, args[0].1)} + ArgKeys(args[1..])
  {
    var rest := args[1..];
    forall k | k in ArgKeys(args) ensures k in {ArgKey(args[0].0, args[0].1)} + ArgKeys(rest) {
      var i :| 0 <= i < |args| && k == ArgKey(args[i].0, args[i].1);
      if i > 0 { assert rest[i - 1] == args[i]; }
    }
    forall k | k in ArgKeys(rest) ensures k in ArgKeys(args) {
      var i :| 0 <= i < |rest| && k == ArgKey(rest[i].0, rest[i].1);
      assert args[i + 1] == rest[i];
    }
  }

  /** With distinct parameter names, the first argument's key is not among the rest's. */
  lemma HeadKeyFresh(args: seq<(string, Value)>)
    requires args != []
    requires forall i | 0 <= i < |args| :: IsParamName(args[i].0)
    requires DistinctParams(args)
    ensures ArgKey(args[0].0, args[0].1) !in ArgKeys(args[1..])
  {
    var rest := args[1..];
    var k0 := ArgKey(args[0].0, args[0].1);
    if k0 in ArgKeys(rest) {
      var i :| 0 <= i < |rest| && k0 == ArgKey(rest[i].0, rest[i].1);
      assert rest[i] == args[i + 1];
      ArgKeyInjective(args[0].0, args[0].1, rest[i].0, rest[i].1);
      assert false;
    }
  }

  /**
   * Capturing bound arguments adds exactly one key per parameter, holding
   * the value (scalar) or its type name (otherwise), and leaves every other
   * key as it was.
   */
  lemma {:induction false} CaptureArgsEffect(a: Attributes, args: seq<(string, Value)>)
    requires forall i | 0 <= i < |args| :: IsParamName(args[i].0)
    requires DistinctParams(args)
    ensures CaptureArgs(a, args).Keys == a.Keys + ArgKeys(args)
    ensures forall i | 0 <= i < |args| ::
      CaptureArgs(a, args)[ArgKey(args[i].0, args[i].1)] == ArgValue(args[i].1)
    ensures forall k | k in a && k !in ArgKeys(args) :: CaptureArgs(a, args)[k] == a[k]
    decreases |args|
  {
    if args != [] {
      var k0 := ArgKey(args[0].0, args[0].1);
      var a' := a[k0 := ArgValue(args[0].1)];
      var rest := args[1..];
      CaptureArgsEffect(a', rest);
      ArgKeysCons(args);
      HeadKeyFresh(args);
      forall i | 0 <= i < |args|
        ensures CaptureArgs(a, args)[ArgKey(args[i].0, args[i].1)] == ArgValue(args[i].1)
      {
        if i > 0 { assert rest[i - 1] == args[i]; }
      }
    }
  }

  /** What the try block and its except clause add to the attributes. */
  function RecordOutcome(a: Attributes, cfg: TraceConfig, o: Outcome): (r: Attributes)
    ensures o.Return? && cfg.captureResult && o.value != Null && IsScalar(o.value) ==>
      r == a["function.result" := o.value]
    ensures o.Return? && cfg.captureResult && o.value != Null && !IsScalar(o.value) ==>
      r == a["function.result.type" := Str(TypeName(o.value))]
    ensures o.Return? && (!cfg.captureResult || o.value == Null) ==> r == a
    ensures o.Raise? && o.exc.isException ==>
      r == a["error.type" := Str(o.exc.typeName)]["error.message" := Str(o.exc.message)]
    ensures o.Raise? && !o.exc.isException ==> r == a
  {
    match o
    case Return(v) =>
      if !cfg.captureResult || v == Null then a
      else if IsScalar(v) then a["function.result" := v]
      else a["function.result.type" := Str(TypeName(v))]
    case Raise(e) =>
      if e.isException then a["error.type" := Str(e.typeName)]["error.message" := Str(e.message)] else a
  }

  /** The status passed to update_span: ERROR exactly when an Exception was caught. */
  function StatusFor(o: Outcome): (st: TraceStatus)
    ensures st == Error <==> o.Raise? && o.exc.isException
    ensures st != Error ==> st == Ok
  {
    if o.Raise? && o.exc.isException then Error else Ok
  }

  /** What the wrapper gives its caller once update_span is done. */
  function ResultFor(cfg: TraceConfig, o: Outcome): (r: Outcome)
    ensures o.Return? ==> r == o
    ensures o.Raise? && o.exc.isException && cfg.ignoreErrors ==> r == Return(Null)
    ensures o.Raise? && !(o.exc.isException && cfg.ignoreErrors) ==> r == o
  {
    if o.Raise? && o.exc.isException && cfg.ignoreErrors then Return(Null) else o
  }

  /** The attributes update_span receives for a call whose arguments were bound as given. */
  function FinalAttributes(cfg: TraceConfig, f: FuncMeta, args: seq<(string, Value)>, o: Outcome,
                           durationMs: real): (r: Attributes)
    ensures "function.duration_ms" in r && r["function.duration_ms"] == Float(durationMs)
    ensures o.Raise? && o.exc.isException ==>
      "error.type" in r && r["error.type"] == Str(o.exc.typeName) &&
      "error.message" in r && r["error.message"] == Str(o.exc.message)
    ensures o.Return? && cfg.captureResult && IsScalar(o.value) && o.value != Null ==>
      "function.result" in r && r["function.result"] == o.value
    ensures o.Return? && cfg.captureResult && !IsScalar(o.value) ==>
      "function.result.type" in r && r["function.result.type"] == Str(TypeName(o.value))
  {
    var seeded := SeedAttributes(f, cfg.spanAttributes);
    var captured := if cfg.captureArgs then CaptureArgs(seeded, args) else seeded;
    RecordOutcome(captured, cfg, o)["function.duration_ms" := Float(durationMs)]
  }

  /** Capture keys live under "function.args.", apart from the keys the call itself records. */
  lemma ArgKeyNotReserved(p: string, v: Value)
    ensures ArgKey(p, v) != "function.result" && ArgKey(p, v) != "function.result.type"
    ensures ArgKey(p, v) != "error.type" && ArgKey(p, v) != "error.message"
    ensures ArgKey(p, v) != "function.duration_ms"
  {
    assert ArgKey(p, v)[9] == 'a';
  }

  /** Recording the outcome touches only the result and error keys. */
  lemma RecordOutcomeKeeps(a: Attributes, cfg: TraceConfig, o: Outcome, k: string)
    requires k in a
    requires k != "function.result" && k != "function.result.type" && k != "error.type" && k != "error.message"
    ensures k in RecordOutcome(a, cfg, o) && RecordOutcome(a, cfg, o)[k] == a[k]
  {
  }

  /** With capture_args, every bound argument reaches update_span as captured. */
  lemma FinalKeepsArguments(cfg: TraceConfig, f: FuncMeta, args: seq<(string, Value)>, o: Outcome,
                            durationMs: real)
    requires cfg.captureArgs
    requires forall i | 0 <= i < |args| :: IsParamName(args[i].0)
    requires DistinctParams(args)
    ensures forall i | 0 <= i < |args| ::
      ArgKey(args[i].0, args[i].1) in FinalAttributes(cfg, f, args, o, durationMs) &&
      FinalAttributes(cfg, f, args, o, durationMs)[ArgKey(args[i].0, args[i].1)] == ArgValue(args[i].1)
  {
    var captured := CaptureArgs(SeedAttributes(f, cfg.spanAttributes), args);
    var recorded := RecordOutcome(captured, cfg, o);
    assert FinalAttributes(cfg, f, args, o, durationMs) == recorded["function.duration_ms" := Float(durationMs)];
    CaptureArgsEffect(SeedAttributes(f, cfg.spanAttributes), args);
    forall i | 0 <= i < |args|
      ensures ArgKey(args[i].0, args[i].1) in recorded["function.duration_ms" := Float(durationMs)]
      ensures recorded["function.duration_ms" := Float(durationMs)][ArgKey(args[i].0, args[i].1)] == ArgValue(args[i].1)
    {
      var k := ArgKey(args[i].0, args[i].1);
      assert k in ArgKeys(args);
      ArgKeyNotReserved(args[i].0, args[i].1);
      RecordOutcomeKeeps(captured, cfg, o, k);
    }
  }

  /** The TypeError a failed argument binding raises. */
  function BindFailure(message: string): PyException {
    PyException("TypeError", message, true)
  }

  /** The trace id the call's span belongs to: the current trace's, or the one start_trace draws. */
  function TraceIdFor(current: Option<TraceContext>, ids: CallIds): (id: string)
    ensures current.Some? ==> id == current.value.traceId
    ensures current == None ==> id == ids.traceId
  {
    if current.Some? then current.value.traceId else ids.traceId
  }

  /** The callee is invoked unless argument capture is on and binding failed. */
  predicate CalleeRuns(cfg: TraceConfig, binding: Binding) {
    !cfg.captureArgs || binding.Bound?
  }

  function BoundArgs(binding: Binding): seq<(string, Value)> {
    if binding.Bound? then binding.args else []
  }

  /** The capture loop: one attribute per bound argument, in parameter order. */
  method CaptureArguments(seeded: Attributes, args: seq<(string, Value)>) returns (attributes: Attributes)
    ensures attributes == CaptureArgs(seeded, args)
  {
    attributes := seeded;
    var i := 0;
    while i < |args|
      invariant 0 <= i <= |args|
      invariant CaptureArgs(attributes, args[i..]) == CaptureArgs(seeded, args)
    {
      var (param, value) := args[i];
      if IsScalar(value) {
        attributes := attributes[ArgPrefix + param := value];
      } else {
        attributes := attributes[ArgPrefix + param + ".type" := Str(TypeName(value))];
      }
      assert args[i..][1..] == args[i + 1..];
      i := i + 1;
    }
  }

  /** The try block and its except clause: the callee's outcome recorded, the status, and what to hand back. */
  method RunCallee(before: Attributes, cfg: TraceConfig, outcome: Outcome)
    returns (attributes: Attributes, status: TraceStatus, result: Outcome)
    ensures attributes == RecordOutcome(before, cfg, outcome)
    ensures status == StatusFor(outcome)
    ensures result == ResultFor(cfg, outcome)
  {
    attributes := before;
    status := Ok;
    match outcome {
      case Return(v) =>
        if cfg.captureResult && v != Null {
          if IsScalar(v) {
            attributes := attributes["function.result" := v];
          } else {
            attributes := attributes["function.result.type" := Str(TypeName(v))];
          }
        }
        result := Return(v);
      case Raise(e) =>
        if e.isException {
          status := Error;
          attributes := attributes["error.type" := Str(e.typeName)];
          attributes := attributes["error.message" := Str(e.message)];
          result := if cfg.ignoreErrors then Return(Null) else Raise(e);
        } else {
          result := Raise(e);
        }
    }
  }

  /**
   * The part of the wrapper after the span descriptor exists: capture the
   * arguments, call, record the outcome, and in `finally` report to the
   * client. update_span is called once exactly when the callee ran and a
   * client is installed.
   */
  method RunAndReport(sdk: Traceloop, spanId: string, cfg: TraceConfig, f: FuncMeta, binding: Binding,
                      outcome: Outcome, durationMs: real)
    returns (out: Outcome)
    modifies sdk.Held()
    ensures sdk.defaultClient == old(sdk.defaultClient)
    ensures !CalleeRuns(cfg, binding) ==> out == Raise(BindFailure(binding.message))
    ensures sdk.defaultClient.Some? && !CalleeRuns(cfg, binding) ==>
      sdk.defaultClient.value.calls == old(sdk.defaultClient.value.calls)
    ensures sdk.defaultClient.Some? && CalleeRuns(cfg, binding) ==>
      sdk.defaultClient.value.calls == old(sdk.defaultClient.value.calls) +
        [UpdateSpanCall(spanId, FinalAttributes(cfg, f, BoundArgs(binding), outcome, durationMs), StatusFor(outcome))]
    ensures sdk.defaultClient.Some? && CalleeRuns(cfg, binding) ==> out == ResultFor(cfg, outcome)
    ensures sdk.defaultClient == None && CalleeRuns(cfg, binding) ==> out == Raise(NotInitialized)
  {
    var attributes := SeedAttributes(f, cfg.spanAttributes);
    if cfg.captureArgs {
      if binding.BindError? {
        return Raise(BindFailure(binding.message));
      }
      attributes := CaptureArguments(attributes, binding.args);
    }
    assert attributes == if cfg.captureArgs then CaptureArgs(SeedAttributes(f, cfg.spanAttributes), BoundArgs(binding))
                         else SeedAttributes(f, cfg.spanAttributes);

    var status, result;
    attributes, status, result := RunCallee(attributes, cfg, outcome);

    // finally
    attributes := attributes["function.duration_ms" := Float(durationMs)];
    assert attributes == FinalAttributes(cfg, f, BoundArgs(binding), outcome, durationMs);
    var client := sdk.GetClient();
    if client.Failure? {
      return Raise(client.error);
    }
    var _ := client.value.UpdateSpan(spanId, attributes, status);
    out := result;
  }

  /**
   * Calls the function wrapped by trace(...) with configuration cfg. The
   * current-trace slot is never changed: a trace started here is not
   * installed. update_span is called once if and only if the callee ran and
   * a client is installed.
   */
  method Invoke(sdk: Traceloop, ctx: ContextStore, cfg: TraceConfig, f: FuncMeta, binding: Binding,
                outcome: Outcome, ids: CallIds, durationMs: real)
    returns (out: Outcome)
    modifies ctx, sdk.Held()
    ensures ctx.currentTrace == old(ctx.currentTrace)
    ensures sdk.defaultClient == old(sdk.defaultClient)
    // get_client raises before anything is recorded
    ensures old(ctx.currentTrace) == None && sdk.defaultClient == None ==>
      out == Raise(NotInitialized) && ctx.spans == old(ctx.spans)
    // otherwise the span descriptor is recorded under the trace in use
    ensures old(ctx.currentTrace).Some? || sdk.defaultClient.Some? ==>
      ctx.spans == old(ctx.spans)[ids.spanId := SpanDescriptor(SpanName(cfg, f), TraceIdFor(old(ctx.currentTrace), ids), ids.spanId)]
    // binding fails before the try: no span update
    ensures (old(ctx.currentTrace).Some? || sdk.defaultClient.Some?) && !CalleeRuns(cfg, binding) ==>
      out == Raise(BindFailure(binding.message))
    ensures sdk.defaultClient.Some? && !CalleeRuns(cfg, binding) ==>
      sdk.defaultClient.value.calls == old(sdk.defaultClient.value.calls)
    // the callee ran: exactly one span update, then return or re-raise
    ensures sdk.defaultClient.Some? && CalleeRuns(cfg, binding) ==>
      sdk.defaultClient.value.calls == old(sdk.defaultClient.value.calls) +
        [UpdateSpanCall(ids.spanId, FinalAttributes(cfg, f, BoundArgs(binding), outcome, durationMs), StatusFor(outcome))]
    ensures sdk.defaultClient.Some? && CalleeRuns(cfg, binding) ==> out == ResultFor(cfg, outcome)
    // a trace was set but no client: get_client in `finally` raises instead
    ensures old(ctx.currentTrace).Some? && sdk.defaultClient == None && CalleeRuns(cfg, binding) ==>
      out == Raise(NotInitialized)
  {
    var spanName := SpanName(cfg, f);
    var traceContext := ctx.GetCurrentTrace();
    if traceContext == None {
      var client := sdk.GetClient();
      if client.Failure? {
        return Raise(client.error);
      }
      traceContext := Some(client.value.StartTrace(spanName, map[], ids.traceId, ids.rootSpanId));
    }
    var spanId := ctx.CreateSpanContext(spanName, traceContext.value.traceId, ids.spanId);

    out := RunAndReport(sdk, spanId, cfg, f, binding, outcome, durationMs);
  }

  // ---------------------------------------------------------------
  // trace_agent and trace_llm

  /** The TypeError for a keyword given both explicitly and through **kwargs. */
  function MultipleValues(param: string): PyException {
    PyException("TypeError", "trace() got multiple values for keyword argument '" + param + "'", true)
  }

  /** Whether **kwargs repeats one of the keywords trace_agent and trace_llm pass to trace explicitly. */
  predicate RepeatsExplicitParam(kwargs: Attributes) {
    "name" in kwargs || "capture_args" in kwargs || "capture_result" in kwargs
  }

  /**
   * trace(name=n, capture_args=ca, capture_result=cr, **kwargs): a kwargs key
   * naming an explicit keyword is a TypeError; an ignore_errors key sets that
   * flag to its truthiness; every other key becomes a span attribute.
   */
  function TraceWithKwargs(name: string, captureArgs: bool, captureResult: bool, kwargs: Attributes)
    : (r: Result<TraceConfig, PyException>)
    ensures r.Failure? <==> RepeatsExplicitParam(kwargs)
    ensures r.Failure? ==> r.error.typeName == "TypeError"
    ensures r.Success? ==> r.value.name == Some(name)
    ensures r.Success? ==> r.value.captureArgs == captureArgs && r.value.captureResult == captureResult
    ensures r.Success? ==> r.value.ignoreErrors == ("ignore_errors" in kwargs && Truthy(kwargs["ignore_errors"]))
    ensures r.Success? ==> r.value.spanAttributes.Keys == kwargs.Keys - {"ignore_errors"}
    ensures r.Success? ==> forall k | k in r.value.spanAttributes :: r.value.spanAttributes[k] == kwargs[k]
  {
    if "name" in kwargs then Failure(MultipleValues("name"))
    else if "capture_args" in kwargs then Failure(MultipleValues("capture_args"))
    else if "capture_result" in kwargs then Failure(MultipleValues("capture_result"))
    else
      Success(TraceConfig(Some(name), captureArgs, captureResult,
                          "ignore_errors" in kwargs && Truthy(kwargs["ignore_errors"]),
                          kwargs - {"ignore_errors"}))
  }

  /** trace_agent(agent_name, capture_inputs, capture_outputs, **attributes) applied to f. */
  function TraceAgent(agentName: Option<string>, captureInputs: bool, captureOutputs: bool,
                      attributes: Attributes, f: FuncMeta): (r: Result<TraceConfig, PyException>)
    ensures r.Success? <==> !RepeatsExplicitParam(attributes)
    ensures r.Success? ==> SpanName(r.value, f) == "agent." + OrElse(agentName, f.name)
    ensures r.Success? ==> r.value.captureArgs == captureInputs && r.value.captureResult == captureOutputs
    ensures r.Success? && "component.type" !in attributes ==>
      "component.type" in r.value.spanAttributes && r.value.spanAttributes["component.type"] == Str("agent")
    ensures r.Success? && "agent.name" !in attributes ==>
      "agent.name" in r.value.spanAttributes && r.value.spanAttributes["agent.name"] == Str(OrElse(agentName, f.name))
    ensures r.Success? ==> forall k | k in attributes && k != "ignore_errors" ::
      k in r.value.spanAttributes && r.value.spanAttributes[k] == attributes[k]
    ensures r.Success? ==> r.value.ignoreErrors == ("ignore_errors" in attributes && Truthy(attributes["ignore_errors"]))
    ensures r.Success? ==> r.value.spanAttributes.Keys == ({"component.type", "agent.name"} + attributes.Keys) - {"ignore_errors"}
  {
    var agentAttributes := map["component.type" := Str("agent"), "agent.name" := Str(OrElse(agentName, f.name))]
                           + attributes;
    TraceWithKwargs("agent." + OrElse(agentName, f.name), captureInputs, captureOutputs, agentAttributes)
  }

  /** trace_llm(model_name, capture_prompts, capture_responses, **attributes) applied to f. */
  function TraceLlm(modelName: Option<string>, capturePrompts: bool, captureResponses: bool,
                    attributes: Attributes, f: FuncMeta): (r: Result<TraceConfig, PyException>)
    ensures r.Success? <==> !RepeatsExplicitParam(attributes)
    ensures r.Success? ==> SpanName(r.value, f) == "llm." + OrElse(modelName, f.name)
    ensures r.Success? ==> r.value.captureArgs == capturePrompts && r.value.captureResult == captureResponses
    ensures r.Success? && "component.type" !in attributes ==>
      "component.type" in r.value.spanAttributes && r.value.spanAttributes["component.type"] == Str("llm")
    ensures r.Success? && "llm.model" !in attributes ==>
      "llm.model" in r.value.spanAttributes && r.value.spanAttributes["llm.model"] == OptionalStr(modelName)
    ensures r.Success? ==> forall k | k in attributes && k != "ignore_errors" ::
      k in r.value.spanAttributes && r.value.spanAttributes[k] == attributes[k]
    ensures r.Success? ==> r.value.ignoreErrors == ("ignore_errors" in attributes && Truthy(attributes["ignore_errors"]))
    ensures r.Success? ==> r.value.spanAttributes.Keys == ({"component.type", "llm.model"} + attributes.Keys) - {"ignore_errors"}
  {
    var llmAttributes := map["component.type" := Str("llm"), "llm.model" := OptionalStr(modelName)]
                         + attributes;
    TraceWithKwargs("llm." + OrElse(modelName, f.name), capturePrompts, captureResponses, llmAttributes)
  }

  // ---------------------------------------------------------------
  // Scenarios

  /**
   * After init, a traced add(a, b) called as add(2, 3) returns 5 and makes
   * exactly one update_span call, with status OK and function.result = 5.
   */
  method TracedAdd(sdk: Traceloop, ctx: ContextStore, ids: CallIds, durationMs: real)
    returns (out: Outcome, client: TraceloopClient)
    modifies sdk, ctx
    ensures out == Return(Int(5))
    ensures |client.calls| == 1 && client.calls[0].UpdateSpanCall?
    ensures client.calls[0].status == Ok && client.calls[0].spanId == ids.spanId
    ensures "function.result" in client.calls[0].attributes
    ensures client.calls[0].attributes["function.result"] == Int(5)
    ensures "function.args.a" in client.calls[0].attributes
    ensures client.calls[0].attributes["function.args.a"] == Int(2)
  {
    var installed := sdk.Init(DefaultEndpoint, None, None, map[]);
    client := installed.value;
    var add := FuncMeta("add", "__main__", "add");
    var args := [("a", Int(2)), ("b", Int(3))];
    out := Invoke(sdk, ctx, DefaultTrace, add, Bound(args), Return(Int(5)), ids, durationMs);
    FinalKeepsArguments(DefaultTrace, add, args, Return(Int(5)), durationMs);
    assert ArgKey(args[0].0, args[0].1) == "function.args.a";
  }

  /**
   * Two traced calls in a flow with no current trace each start their own
   * trace: their spans are recorded under different trace ids.
   */
  method CallsWithoutCurrentTrace(sdk: Traceloop, ctx: ContextStore, cfg: TraceConfig, f: FuncMeta,
                                  outcome: Outcome, ids1: CallIds, ids2: CallIds, durationMs: real)
    requires sdk.defaultClient.Some? && ctx.currentTrace == None
    requires ids1.traceId != ids2.traceId && ids1.spanId != ids2.spanId
    modifies ctx, sdk.Held()
    ensures ctx.currentTrace == None
    ensures ids1.spanId in ctx.spans && ctx.spans[ids1.spanId].traceId == ids1.traceId
    ensures ids2.spanId in ctx.spans && ctx.spans[ids2.spanId].traceId == ids2.traceId
  {
    var out1 := Invoke(sdk, ctx, cfg, f, Bound([]), outcome, ids1, durationMs);
    var out2 := Invoke(sdk, ctx, cfg, f, Bound([]), outcome, ids2, durationMs);
  }
}
