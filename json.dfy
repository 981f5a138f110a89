/**
 * JSON documents, and the encoding of Python values into them that
 * json.dumps performs (and json.loads undoes). The trace store keeps its
 * records as JSON documents too.
 */
module Json {
  import opened Wrappers
  import opened Runtime

  datatype Json =
    | JNull
    | JBool(b: bool)
    | JInt(i: int)
    | JFloat(f: real)
    | JStr(s: string)
    | JArr(items: seq<Json>)
    | JObj(fields: map<string, Json>)

  /** An Object anywhere inside the value: json.dumps raises TypeError on it. */
  predicate HasObject(v: Value) {
    match v
    case List(_) | ListLike(_, _) => exists i | 0 <= i < |v.items| :: HasObject(v.items[i])
    case Dict(_) | DictLike(_, _) => exists k | k in v.entries :: HasObject(v.entries[k])
    case Object(_) => true
    case _ => false
  }

  /**
   * json.dumps of a value, as a document; None where it raises. Tuples and
   * list subclasses become arrays, dict subclasses objects.
   */
  function Encode(v: Value): (r: Option<Json>)
    ensures r.Some? <==> !HasObject(v)
  {
    match v
    case Null => Some(JNull)
    case Bool(b) => Some(JBool(b))
    case Int(i) => Some(JInt(i))
    case Float(f) => Some(JFloat(f))
    case Str(s) => Some(JStr(s))
    case List(_) | ListLike(_, _) =>
      if forall i | 0 <= i < |v.items| :: Encode(v.items[i]).Some?
      then Some(JArr(seq(|v.items|, i requires 0 <= i < |v.items| => Encode(v.items[i]).value)))
      else None
    case Dict(_) | DictLike(_, _) =>
      if forall k | k in v.entries :: Encode(v.entries[k]).Some?
      then Some(JObj(map k | k in v.entries :: Encode(v.entries[k]).value))
      else None
    case Object(_) => None
  }

  /** A value json.loads can give back: None, bool, int, float, str, and lists and dicts of them. */
  predicate Native(v: Value) {
    match v
    case List(items) => forall i | 0 <= i < |items| :: Native(items[i])
    case Dict(entries) => forall k | k in entries :: Native(entries[k])
    case ListLike(_, _) | DictLike(_, _) | Object(_) => false
    case _ => true
  }

  /** A tuple or list subclass is written exactly as the list of its items. */
  lemma ListLikeEncodesAsList(typeName: string, items: seq<Value>)
    ensures Encode(ListLike(typeName, items)) == Encode(List(items))
  {
  }

  /** A dict subclass is written exactly as the dict of its entries. */
  lemma DictLikeEncodesAsDict(typeName: string, entries: map<string, Value>)
    ensures Encode(DictLike(typeName, entries)) == Encode(Dict(entries))
  {
  }

  /** json.loads of a document: arrays become lists, objects dicts. */
  function Decode(j: Json): Value {
    match j
    case JNull => Null
    case JBool(b) => Bool(b)
    case JInt(i) => Int(i)
    case JFloat(f) => Float(f)
    case JStr(s) => Str(s)
    case JArr(items) => List(seq(|items|, i requires 0 <= i < |items| => Decode(items[i])))
    case JObj(fields) => Dict(map k | k in fields :: Decode(fields[k]))
  }

  /** Decoding the encoding of a value json.loads can produce gives the value back. */
  lemma {:induction false} DecodeEncode(v: Value)
    requires Native(v)
    ensures Encode(v).Some? && Decode(Encode(v).value) == v
  {
    match v
    case List(items) =>
      forall i | 0 <= i < |items| ensures Encode(items[i]).Some? && Decode(Encode(items[i]).value) == items[i] {
        DecodeEncode(items[i]);
      }
      assert Decode(Encode(v).value) == List(items);
    case Dict(entries) =>
      forall k | k in entries ensures Encode(entries[k]).Some? && Decode(Encode(entries[k]).value) == entries[k] {
        DecodeEncode(entries[k]);
      }
      assert Decode(Encode(v).value) == Dict(entries);
    case _ =>
  }

  /** Every document is the encoding of the value it decodes to. */
  lemma {:induction false} EncodeDecode(j: Json)
    ensures Encode(Decode(j)) == Some(j)
  {
    match j
    case JArr(items) =>
      var vs := seq(|items|, i requires 0 <= i < |items| => Decode(items[i]));
      forall i | 0 <= i < |items| ensures Encode(vs[i]) == Some(items[i]) {
        EncodeDecode(items[i]);
      }
      assert Encode(List(vs)).value.items == items;
    case JObj(fields) =>
      var m := map k | k in fields :: Decode(fields[k]);
      forall k | k in fields ensures Encode(m[k]) == Some(fields[k]) {
        EncodeDecode(fields[k]);
      }
      assert Encode(Dict(m)).value.fields == fields;
    case _ =>
  }

  /** json.loads only produces native values: a tuple written out reads back as a list. */
  lemma {:induction false} DecodeNative(j: Json)
    ensures Native(Decode(j))
  {
    match j
    case JArr(items) =>
      forall i | 0 <= i < |items| ensures Native(Decode(items[i])) {
        DecodeNative(items[i]);
      }
    case JObj(fields) =>
      forall k | k in fields ensures Native(Decode(fields[k])) {
        DecodeNative(fields[k]);
      }
    case _ =>
  }
}
