# Traceloop tracing core in Dafny

This project models the tracing core of Traceloop, an observability tool for AI agents. It has two parts:

- **The Python SDK.** It covers:
  - the trace records and their default-filling;
  - the per-flow context store, which holds the current trace and a span table;
  - the client: its configuration, `start_trace`, the bookkeeping stubs, and the JSON body `send_trace` posts with the boolean it makes of the reply;
  - the package-global client held by `init`/`get_client`;
  - the `@trace` wrapper, and the `trace_agent` and `trace_llm` factories built on it.
- **The Go server's trace store.** The `BadgerStore` methods `StoreTrace`, `GetTrace`, `GetTraces` and `GetStats` run over the key-value database. The database is modelled as an ordered map from keys to stored values, with JSON encoding treated as the identity.

Modules, one per source file or concern:

| file | models |
|---|---|
| `wrappers.dfy` | `Option` and `Result` |
| `runtime.dfy` | Python values, truthiness, `type(v).__name__`, raised exceptions (and whether they derive from `Exception`), `uuid4()` text, datetimes as their `isoformat()` text |
| `types.dfy` | `types.py`: `TraceStatus`, and `Span`, `Trace`, `TraceEvent`, `TraceContext` with their `__post_init__` defaults |
| `json.dfy` | the JSON documents `json.dumps` produces from Python values, and reading them back |
| `context.dfy` | `context.py`: class `ContextStore`, with the current-trace slot and the span-descriptor table |
| `client.dfy` | `client.py`: class `TraceloopClient`, and the `send_trace` body with its decoder |
| `sdk.dfy` | `__init__.py`: class `Traceloop`, holding `_default_client` |
| `decorators.dfy` | `decorators.py`: the wrapper (`Invoke`, with its argument-capture loop), and `trace_agent`/`trace_llm` |
| `store.dfy` | `server/storage/store.go`: class `BadgerStore` over a key-sorted table, with the iterator loops of `GetTraces` and `GetStats` |

Things the SDK draws from outside are parameters:

- A `uuid4()` is a `Uuid` argument: a 36-character string. That it is fresh is the caller's assumption.
- A `time.time()` difference is the `durationMs` argument.
- The HTTP reply is an `HttpOutcome`.
- `inspect.signature(...).bind` gives a `Binding`: the ordered `(parameter, value)` pairs, or the `TypeError` message.
- What the wrapped function does is an `Outcome`: it returns a value or raises.

Keyword arguments forwarded with `**attributes` or `**kwargs` bind as in Python. A key that names a parameter already bound, including a method's `self`, is a `TypeError` (`Runtime.BindClash`).

The three bookkeeping stubs `end_trace`, `add_event` and `update_span` print a line and return `True`. Here each of them appends a `ClientCall` to the client's `calls` log. That log is how "update_span is called exactly once" is stated.

The wrapper never installs a trace it starts. When no trace is current, it calls `start_trace` and uses the returned trace id for its span, but leaves the current-trace slot empty (`sdk/python/traceloop/decorators.py:41-45`). Nested or repeated wrapped calls therefore do not share a trace unless the caller set one. One might expect the started trace to become current; it does not, and `Decorators.Invoke` states this as `ctx.currentTrace == old(ctx.currentTrace)`.

## Model

| member | source | states |
|---|---|---|
| `Types.TraceStatus.Wire` | sdk/python/traceloop/types.py:13-16 | Each member's value is its wire string: "ok", "error", "timeout" or "cancelled", each string belonging to exactly one member. |
| `Types.StatusFromWire` | sdk/python/traceloop/types.py:11-16 | The lookup by value returns a member with that wire string, and does so whenever any member has it. |
| `Types.StatusMembers` | sdk/python/traceloop/types.py:11-16 | The enum has exactly four members, every member is listed, and their wire strings are pairwise distinct. |
| `Types.StatusWireRoundTrip` | sdk/python/traceloop/types.py:11-16 | Looking a member up by its own wire string gives the member back. |
| `Types.NewSpan` | sdk/python/traceloop/types.py:31-37 | A falsy span_id is replaced by the fresh uuid and a non-empty one is kept. None events and attributes become empty, supplied ones are kept, and every other field is untouched. |
| `Types.NewTrace` | sdk/python/traceloop/types.py:51-57 | A falsy trace_id is replaced by the fresh uuid and a non-empty one is kept. None spans and attributes become empty, and name, times, status and service_name are untouched. |
| `Types.NewTraceEvent` | sdk/python/traceloop/types.py:66-68 | Only None attributes is defaulted, to `{}`; name and timestamp are kept. |
| `Types.NewTraceContext` | sdk/python/traceloop/types.py:78-80 | Only None attributes is defaulted; trace_id is never generated, and span_id and service_name are kept. |
| `Types.NewSpanIdempotent` | sdk/python/traceloop/types.py:31-37 | Rebuilding an already normalised span returns it unchanged, whatever uuid is drawn. |
| `Context.ContextStore.constructor` | sdk/python/traceloop/context.py:10-14 | A fresh flow has no current trace and an empty span table. |
| `Context.ContextStore.GetCurrentTrace` | sdk/python/traceloop/context.py:12-14 | Returns the slot's content, None when nothing was set; it has no side effects. |
| `Context.ContextStore.SetCurrentTrace` | sdk/python/traceloop/context.py:16-18 | The slot then holds exactly the given context, overwriting the old one; the span table is unchanged. |
| `Context.ContextStore.CreateSpanContext` | sdk/python/traceloop/context.py:20-35 | Returns the drawn uuid and records `{name, trace_id, span_id}` under it, so a lookup of that id returns the descriptor. The table grows by one for a fresh id, other entries are unchanged, and the current trace is unchanged. |
| `Context.ContextStore.GetSpanContext` | sdk/python/traceloop/context.py:37-41 | Returns a descriptor exactly when the id is in the table, namely the recorded one; it has no side effects. |
| `Context.ContextStore.SetTraceAttribute` | sdk/python/traceloop/context.py:43-47 | With a current trace, sets `attributes[key] = value`, overwriting. Without one, nothing changes. The span table is never touched. |
| `Context.ContextStore.ClearContext` | sdk/python/traceloop/context.py:49-54 | Afterwards there is no current trace and every span lookup is None, whatever the state before, so clearing twice equals clearing once. |
| `Client.StripTrailingSlashes` | sdk/python/traceloop/client.py:23 | The result is a prefix of the input that does not end in `/`, and everything removed is `/`. |
| `Client.StripTrailingSlashesKeeps` | sdk/python/tests/test_traceloop.py:10-12 | Stripping is idempotent and keeps an endpoint that does not end in `/`, the default endpoint in particular. |
| `Client.TraceloopClient.constructor` | sdk/python/traceloop/client.py:16-37 | The endpoint is stripped and api_key is kept. service_name defaults to "unknown-service". The added headers are `SessionHeaders(api_key)`, and the call log starts empty. |
| `Client.SessionHeaders` | sdk/python/traceloop/client.py:29-37 | There is an Authorization `Bearer <key>` header iff api_key is truthy. Content-Type `application/json` and the User-Agent are always set, and no other header is added. |
| `Client.TraceloopClient.StartTrace` | sdk/python/traceloop/client.py:39-56 | The context has the two drawn uuids and the client's service_name. Its attribute keys are trace.name, service.name and the caller's keys; caller keys win, and otherwise trace.name is the name and service.name the service. |
| `Client.TraceloopClient.EndTrace` | sdk/python/traceloop/client.py:58-62 | Returns True and logs exactly one end-trace call. |
| `Client.TraceloopClient.AddEvent` | sdk/python/traceloop/client.py:64-68 | Returns True and logs exactly one add-event call. |
| `Client.TraceloopClient.UpdateSpan` | sdk/python/traceloop/client.py:70-79 | Returns True and logs exactly one update-span call carrying the span id, attributes and status. |
| `Client.TraceloopClient.TraceRequest` | sdk/python/traceloop/client.py:111-113 | A request is made exactly when the body serialises; it goes to `endpoint + "/api/v1/traces"` with that body. |
| `Client.TraceloopClient.SendTrace` | sdk/python/traceloop/client.py:81-123 | Returns True iff the body serialises and the reply is status 200. A non-200 reply, a transport error or a serialisation error gives False, and it never raises. |
| `Client.EncodeSpan` | sdk/python/traceloop/client.py:92-104 | A span serialises iff neither its attributes nor its events hold an unserialisable object. It is then an object with exactly the nine span keys. span_id, trace_id, name, start_time, parent_span_id and end_time (null iff absent) are copied, status is the wire string, and attributes and events are their json encodings. |
| `Client.EncodeSpans` | sdk/python/traceloop/client.py:91-106 | The spans list serialises iff every span does, and then holds each span's encoding at its index. |
| `Client.EncodeTrace` | sdk/python/traceloop/client.py:85-109 | The body is an object with exactly the eight top-level keys, and it serialises iff every span and the attributes do. trace_id, name, start_time and the attributes' encoding are copied; end_time and service_name are null iff absent and otherwise the isoformat text and the name, status is the wire string, and spans is an array of the same length and order. |
| `Client.SpanRoundTrip` | sdk/python/traceloop/client.py:92-104 | A span whose attributes and events are built from native JSON values (None, bool, int, float, str, list, dict) serialises. Decoding it gives back the span: ids, name, times, status, attributes and events. |
| `Client.TraceRoundTrip` | sdk/python/traceloop/client.py:85-109 | A trace whose attributes and spans are built from native JSON values serialises. Decoding the posted body gives back the whole trace, including trace_id and every span in order; this is the span-order property of sdk/python/tests/test_traceloop.py:94-98 carried through serialisation. |
| `Json.Encode` | sdk/python/traceloop/client.py:111-113 | Serialisation succeeds exactly when no unserialisable object occurs in the value. Tuples and list subclasses become arrays, and dict subclasses become objects. |
| `Json.ListLikeEncodesAsList` | sdk/python/traceloop/client.py:111-113 | A tuple or list subclass is written exactly as the list of its items. |
| `Json.DictLikeEncodesAsDict` | sdk/python/traceloop/client.py:111-113 | A dict subclass is written exactly as the dict of its entries. |
| `Json.DecodeEncode` | sdk/python/traceloop/client.py:111-113 | A native JSON value (None, bool, int, float, str, and lists and dicts of them) serialises, and decoding it gives the value back. |
| `Json.DecodeNative` | sdk/python/traceloop/client.py:111-113 | Decoding only produces native values, so a tuple or dict subclass reads back as a plain list or dict. |
| `Json.EncodeDecode` | sdk/python/traceloop/client.py:111-113 | Serialising a decoded document gives the document back. |
| `Runtime.BindClash` | sdk/python/traceloop/__init__.py:56-68 | Binding `**kwargs` beside named parameters fails iff a key names one of them, and the TypeError then names such a parameter. |
| `Sdk.Traceloop.constructor` | sdk/python/traceloop/__init__.py:20 | After import there is no default client. |
| `Sdk.Traceloop.Init` | sdk/python/traceloop/__init__.py:23-45 | A keyword in `**kwargs` repeating endpoint, api_key or service_name, or naming the client constructor's `self` (client.py:16-21), raises TypeError and keeps the earlier default. Otherwise it creates a fresh client from exactly the given endpoint, api_key and service_name, makes it the default in place of any earlier one, and returns it. The client ignores every other keyword, and its headers are `SessionHeaders(api_key)`. |
| `Sdk.Traceloop.GetClient` | sdk/python/traceloop/__init__.py:48-52 | Before init it fails with the "Traceloop not initialized" RuntimeError; afterwards it returns the latest client. |
| `Sdk.Traceloop.StartTrace` | sdk/python/traceloop/__init__.py:56-58 | An attribute named `name` cannot bind and raises TypeError. Otherwise get_client's error comes next, and then the TypeError an attribute named `self` causes against the client method's own `self` (client.py:39). It succeeds exactly when none of these happens, and then it is the client's start_trace. |
| `Sdk.Traceloop.EndTrace` | sdk/python/traceloop/__init__.py:61-63 | Fails exactly when get_client fails. Otherwise it returns True and the default client logs one end-trace call; the held client is unchanged. |
| `Sdk.Traceloop.AddEvent` | sdk/python/traceloop/__init__.py:66-68 | An attribute repeating `trace_id` or `name` raises TypeError, then comes get_client's error, then the TypeError for an attribute named `self` (client.py:64). Only when none happens does it return True, and only then does the default client log one add-event call; otherwise its log is unchanged. |
| `Sdk.InitTwice` | sdk/python/traceloop/__init__.py:41-52 | After two inits the default is the second client, a different object from the first, and get_client returns it. |
| `Sdk.InitDefaultEndpoint` | sdk/python/tests/test_traceloop.py:8-12 | init with the default endpoint gives a client whose endpoint is exactly `http://localhost:8080` and whose service is "unknown-service". |
| `Decorators.SpanName` | sdk/python/traceloop/decorators.py:38 | The span name is the configured name when truthy, else `<module>.<qualname>`. |
| `Decorators.TraceIdFor` | sdk/python/traceloop/decorators.py:41-45 | The span's trace id is the current trace's when one is set, else the id start_trace draws. |
| `Decorators.SeedAttributes` | sdk/python/traceloop/decorators.py:51-56 | The keys are function.name, function.module, function.qualname and the decorator's extra keys. The extra attributes override same-named keys, and otherwise the metadata is recorded. |
| `Decorators.ArgKeyInjective` | sdk/python/traceloop/decorators.py:64-69 | Two parameters captured under the same key are the same parameter. |
| `Decorators.CaptureArgsEffect` | sdk/python/traceloop/decorators.py:59-69 | Capturing adds exactly one key per bound parameter. A scalar is stored under `function.args.<p>` with its value, anything else under `function.args.<p>.type` with its type name, and all other keys are unchanged. |
| `Decorators.CaptureArguments` | sdk/python/traceloop/decorators.py:64-69 | The capture loop computes the fold `CaptureArgs` over the bound pairs in order, whose effect `CaptureArgsEffect` states. |
| `Decorators.RecordOutcome` | sdk/python/traceloop/decorators.py:76-95 | On a return with capture_result and a non-None value, it records function.result (scalar) or function.result.type. On a caught Exception it records error.type and error.message = str(e). A BaseException-only raise adds nothing. |
| `Decorators.StatusFor` | sdk/python/traceloop/decorators.py:72-89 | The status is ERROR exactly when an Exception was caught, and OK otherwise, including for non-Exception raises. |
| `Decorators.ResultFor` | sdk/python/traceloop/decorators.py:86-95 | A return value is handed back unchanged. A caught Exception is re-raised, or gives None with ignore_errors. Any other raise propagates. |
| `Decorators.FinalAttributes` | sdk/python/traceloop/decorators.py:97-104 | The reported attributes always hold function.duration_ms. They hold error.type and error.message after a caught Exception, and the captured result after a return. |
| `Decorators.ArgKeyNotReserved` | sdk/python/traceloop/decorators.py:64-104 | A captured argument's key never collides with function.result, function.result.type, error.type, error.message or function.duration_ms. |
| `Decorators.RecordOutcomeKeeps` | sdk/python/traceloop/decorators.py:76-95 | Recording the outcome keeps the value of every key other than the result and error keys. |
| `Decorators.FinalKeepsArguments` | sdk/python/traceloop/decorators.py:59-104 | With capture_args and distinct parameter names, update_span receives every bound argument just as it was captured, whatever the outcome. |
| `Decorators.RunCallee` | sdk/python/traceloop/decorators.py:74-95 | The try/except computes exactly RecordOutcome, StatusFor and ResultFor of the outcome. |
| `Decorators.RunAndReport` | sdk/python/traceloop/decorators.py:59-104 | A binding failure with capture_args raises TypeError and makes no span update. Otherwise update_span is called exactly once with the final attributes and the status, and the wrapper returns ResultFor, or raises RuntimeError if no client is installed. |
| `Decorators.Invoke` | sdk/python/traceloop/decorators.py:37-106 | The current trace is never changed. With no trace and no client it raises before recording anything. Otherwise a descriptor under the span name and the trace in use gets the id later passed to update_span. A binding failure means no update; once the callee runs there is exactly one update_span and then the outcome's return or re-raise. |
| `Decorators.TraceWithKwargs` | sdk/python/traceloop/decorators.py:134-139 | Forwarding the keyword arguments fails with TypeError iff they repeat name, capture_args or capture_result. ignore_errors becomes the flag, and every other key becomes a span attribute. |
| `Decorators.TraceAgent` | sdk/python/traceloop/decorators.py:109-141 | The span name is `agent.<agent_name or func name>`, and capture_inputs/capture_outputs become capture_args/capture_result. ignore_errors is set exactly when the attributes hold a truthy `ignore_errors`. The span attributes are exactly component.type="agent", agent.name and the caller's keys, minus `ignore_errors`; caller attributes override the two seeds. |
| `Decorators.TraceLlm` | sdk/python/traceloop/decorators.py:143-175 | The span name is `llm.<model_name or func name>`, and capture_prompts/capture_responses become capture_args/capture_result. ignore_errors is set exactly when the attributes hold a truthy `ignore_errors`. The span attributes are exactly component.type="llm", llm.model=model_name (None allowed) and the caller's keys, minus `ignore_errors`; caller attributes override the two seeds. |
| `Decorators.TracedAdd` | sdk/python/traceloop/decorators.py:37-106 | After init, a traced `add(2, 3)` returns 5 and makes exactly one span update, with status OK, function.result 5 and function.args.a 2. |
| `Decorators.CallsWithoutCurrentTrace` | sdk/python/traceloop/decorators.py:41-48 | Two wrapped calls with no current trace record their spans under two different trace ids, and the slot stays empty. |
| `Store.Insert` | server/storage/store.go:132-135 | Writing a key keeps the table sorted and binds that key to the value; every other key's lookup is unchanged. |
| `Store.ScanTracesFailure` | server/storage/store.go:64-86 | GetTraces fails only if some record under a trace key does not decode. |
| `Store.ScanTracesFailsOnMalformed` | server/storage/store.go:64-86 | When the limit is at least the number of trace records, one record under a trace key that does not decode makes GetTraces fail; no bad record is skipped. With `ScanTracesFailure` this is an if-and-only-if. |
| `Store.ScanTracesLength` | server/storage/store.go:54-79 | If every trace record decodes, GetTraces succeeds with exactly min(limit, number of trace keys) records, or none for a limit of 0 or less. |
| `Store.ScanTracesSound` | server/storage/store.go:54-79 | GetTraces returns at most `limit` records, and each record returned is one stored under a `"trace:"` key. |
| `Store.StatsOfSpec` | server/storage/store.go:149-181 | GetStats fails exactly when some trace record does not decode; otherwise total_traces is the number of trace keys. |
| `Store.InsertTraceKeyCount` | server/storage/store.go:132-135 | Storing under a new trace key adds one to the number of trace keys; overwriting an existing one adds none. |
| `Store.BadgerStore.constructor` | server/storage/store.go:27-37 | A new store has an empty, sorted table. |
| `Store.BadgerStore.StoreTrace` | server/storage/store.go:118-136 | A missing or non-string trace_id gives "trace_id is required" and leaves the store unchanged. Otherwise `"trace:"+id` is bound to the record, replacing any earlier one, and no other key changes. |
| `Store.BadgerStore.GetTrace` | server/storage/store.go:92-115 | An absent key gives "trace not found", a record that does not decode gives its decode error, and otherwise the stored record is returned. |
| `Store.BadgerStore.GetTraces` | server/storage/store.go:48-89 | The iterator loop with its `count < limit` stop computes ScanTraces, including the wrapped error and no partial result. |
| `Store.BadgerStore.GetStats` | server/storage/store.go:139-181 | The iterator loop computes StatsOf: trace count and span total, or the wrapped error. A record whose spans is not an array adds 0. |
| `Store.StoreThenGet` | server/storage/store_test.go:84-97 | GetTrace after StoreTrace with a string trace_id returns the same record, hence the same trace_id. |
| `Store.EmptyStore` | server/storage/store_test.go:23-58 | A new store lists no traces and reports zero traces and zero spans. |

## Left out

- Thread isolation. `threading.local` only separates flows from each other, so `ContextStore` models a single flow's slot.
- Identity of the trace attributes dict. `set_trace_attribute` mutates the attributes of the `TraceContext` object in place, so any other holder of that object sees the change. Here contexts are values, and only the slot's copy changes.
- `time.time()`. The duration is an arbitrary `real` passed in by the caller, and floating-point arithmetic is not modelled. Python floats are `real` throughout.
- `Client.TraceloopClient.SendTrace`: NaN and infinite floats are not modelled. `requests` serialises the body with `allow_nan=False`, so `send_trace` returns False for a trace holding one. Every `real` encodes, so here such a trace is sent, and the result is True when the reply is 200.
- `Client.TraceloopClient.SendTrace`: dicts whose keys are not strings are not modelled. `json.dumps` writes int, float, bool and None keys as strings, so such attributes are posted and `send_trace` can return True. `Value` dicts have string keys only. Such a dict can only be an `Object`, and then the model returns False.
- `uuid.uuid4()`. Ids are `Uuid` parameters; that they are unique is an assumption, not something proved.
- `datetime` and `isoformat()`. A datetime is its isoformat text.
- `inspect.signature`, `functools.wraps` and type-name introspection. The binding and the function metadata are inputs. A subclass of str, int, float or bool is modelled as that scalar value, which is how capture and json treat it. Tuples and list subclasses are `ListLike`, and dict subclasses `DictLike`; both keep their type name. Any other object is an `Object` known only by its type name, and json rejects it. Objects with a custom `__bool__`, and sets, are not distinguished from other objects.
- The `print` lines of the stubs and of `send_trace`, and the `requests.Session` default headers. Only the headers the client adds are modelled.
- The socket, the timeout and the response text of the POST. They are summarised by `HttpOutcome`.
- Python dict insertion order. Attribute maps are unordered.
- The wrapped callee's own effects. An `Outcome` says only what the call returns or raises. A callee that itself calls a traced function, sets the current trace or calls `init` is not modelled, so nested traced calls are not covered; `CallsWithoutCurrentTrace` only covers calls made one after another. `Invoke`'s "exactly one update_span" is this call's own update: a nested traced callee would append its own update and descriptor first.
- `Client.SpanRoundTrip` and `Client.TraceRoundTrip` are stated for native JSON values. `json.loads` turns a tuple or dict subclass into a plain list or dict (`Json.DecodeNative`), so a span holding one does not read back as itself.
- `Decorators.TraceWithKwargs`: when several forwarded keys collide with explicit keywords, Python's error names one of them; which one depends on dictionary order, which is not modelled. The contract states only that a TypeError is raised.
- `Runtime.BindClash`: when several keywords clash, Python names the first of them in keyword order. Maps carry no order, so the contract says only that one of the clashing parameters is named.
- Duplicate or dotted parameter names. `CaptureArgsEffect` assumes the bound names are distinct identifiers, which holds for any Python signature.
- BadgerDB itself: files, transactions, I/O errors other than a missing key, `NewBadgerStore` options and `Close`. The database is an ordered table; keys are compared character by character.
- The iterator's prefix option. Here the loops visit every key and skip non-trace keys. This visits the same records in the same order as Badger's prefix iteration.
- `encoding/json`. It is the identity on records, so `json.Marshal` failures (for example NaN floats) in `StoreTrace` are not modelled, and neither is the integer-to-float64 change of numbers. A stored value that does not decode is `Malformed` with its error text.
- `storage_size`. The byte total and its `"%.2f MB"` formatting use float division and `Sprintf`.
- Go's nil slice from `GetTraces` when nothing is read. It appears here as the empty sequence.
- `Store.StatsOfSpec` states the count of trace keys, not total_spans. total_spans is what `StatsOf` sums via `SpanCount`, and `BadgerStore.GetStats` is proved equal to it.
- `server/server.go`, `server/grpc/server.go` and `cmd/traceloop/main.go` are not part of this model, nor are the demos, examples, integration tests and the status-page script.
