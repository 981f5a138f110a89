/**
 * The parts of the Python runtime the SDK relies on: the values a traced
 * function can receive or return, their truthiness and type names, raised
 * exceptions, the text of uuid4() and of datetime.isoformat().
 */
module Runtime {
  import opened Wrappers

  /**
   * A Python value. The scalars are None, bool, int, float and str (a
   * subclass of one of them is captured and encoded as that scalar);
   * List and Dict are exactly list and dict; ListLike is a tuple or a list
   * subclass and DictLike a dict subclass, which keep their own type name;
   * every other object is an Object known only by its type name.
   */
  datatype Value =
    | Null
    | Bool(b: bool)
    | Int(i: int)
    | Float(f: real)
    | Str(s: string)
    | List(items: seq<Value>)
    | Dict(entries: map<string, Value>)
    | ListLike(typeName: string, items: seq<Value>)
    | DictLike(typeName: string, entries: map<string, Value>)
    | Object(typeName: string)

  /** A str-keyed dictionary of attribute values. */
  type Attributes = map<string, Value>

  /** isinstance(v, (str, int, float, bool, type(None))) */
  predicate IsScalar(v: Value) {
    v.Null? || v.Bool? || v.Int? || v.Float? || v.Str?
  }

  /** type(v).__name__ */
  function TypeName(v: Value): string {
    match v
    case Null => "NoneType"
    case Bool(_) => "bool"
    case Int(_) => "int"
    case Float(_) => "float"
    case Str(_) => "str"
    case List(_) => "list"
    case Dict(_) => "dict"
    case ListLike(t, _) => t
    case DictLike(t, _) => t
    case Object(t) => t
  }

  /** bool(v); an Object without __bool__ or __len__ is truthy. */
  predicate Truthy(v: Value) {
    match v
    case Null => false
    case Bool(b) => b
    case Int(i) => i != 0
    case Float(f) => f != 0.0
    case Str(s) => s != ""
    case List(items) => items != []
    case Dict(entries) => entries != map[]
    case ListLike(_, items) => items != []
    case DictLike(_, entries) => entries != map[]
    case Object(_) => true
  }

  /** Truthiness of an optional string: None and "" are falsy. */
  predicate Present(s: Option<string>) {
    s.Some? && s.value != ""
  }

  /** Python's `s or fallback` for an optional string. */
  function OrElse(s: Option<string>, fallback: string): string {
    if Present(s) then s.value else fallback
  }

  /** The Python value of an optional string: None or the str. */
  function OptionalStr(s: Option<string>): Value {
    if s.Some? then Str(s.value) else Null
  }

  /**
   * A raised Python exception: its type name, str(e), and whether its type
   * derives from Exception (KeyboardInterrupt, SystemExit and GeneratorExit
   * derive only from BaseException).
   */
  datatype PyException = PyException(typeName: string, message: string, isException: bool)

  /** The TypeError of a call whose keyword arguments name a parameter that is already bound. */
  function MultipleValuesFor(callee: string, param: string): PyException {
    PyException("TypeError", callee + "() got multiple values for argument '" + param + "'", true)
  }

  /**
   * Binding **kwargs next to the named parameters params: the TypeError for
   * a parameter kwargs names again, or None when every key is free.
   */
  function BindClash(callee: string, params: seq<string>, kwargs: Attributes): (e: Option<PyException>)
    ensures e.None? <==> forall i | 0 <= i < |params| :: params[i] !in kwargs
    ensures e.Some? ==> exists i | 0 <= i < |params| ::
      params[i] in kwargs && e.value == MultipleValuesFor(callee, params[i])
  {
    if params == [] then None
    else if params[0] in kwargs then Some(MultipleValuesFor(callee, params[0]))
    else
      var rest := BindClash(callee, params[1..], kwargs);
      assert forall i | 1 <= i < |params| :: params[i] == params[1..][i - 1];
      rest
  }

  /** str(uuid.uuid4()): always 36 characters. */
  type Uuid = s: string | |s| == 36 witness "00000000-0000-0000-0000-000000000000"

  /** A datetime, represented by the text its isoformat() produces. */
  datatype Time = Time(iso: string)
}
