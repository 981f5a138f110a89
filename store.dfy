/**
 * The server's trace store. The key-value database is an ordered map from
 * string keys to stored values, iterated in ascending key order (byte order
 * of the UTF-8 keys, which is code-point order); traces live under
 * "trace:" + trace_id. Encoding a record is the identity, and a stored
 * value is either a JSON object or bytes that do not decode to one.
 */
module Store {
  import opened Wrappers
  import opened Json

  /** A decoded trace record: map[string]interface{}. */
  type Record = map<string, Json>

  /** A stored value: the encoding of a record, or bytes json.Unmarshal rejects with the given message. */
  datatype Blob = Encoded(record: Record) | Malformed(reason: string)

  type Entries = seq<(string, Blob)>

  const TracePrefix: string := "trace:"

  function TraceKey(id: string): string {
    TracePrefix + id
  }

  predicate IsTraceKey(k: string) {
    |k| >= |TracePrefix| && k[..|TracePrefix|] == TracePrefix
  }

  // ---------------------------------------------------------------
  // Key order

  /** Lexicographic order on keys. */
  predicate Less(a: string, b: string) {
    if a == [] then b != []
    else if b == [] then false
    else if a[0] != b[0] then a[0] < b[0]
    else Less(a[1..], b[1..])
  }

  lemma {:induction false} LessIrreflexive(a: string)
    ensures !Less(a, a)
  {
    if a != [] { LessIrreflexive(a[1..]); }
  }

  lemma {:induction false} LessTransitive(a: string, b: string, c: string)
    requires Less(a, b) && Less(b, c)
    ensures Less(a, c)
  {
    if a != [] && b != [] && c != [] && a[0] == b[0] && b[0] == c[0] {
      LessTransitive(a[1..], b[1..], c[1..]);
    }
  }

  lemma {:induction false} LessTotal(a: string, b: string)
    requires a != b
    ensures Less(a, b) || Less(b, a)
  {
    if a != [] && b != [] && a[0] == b[0] {
      assert a == [a[0]] + a[1..] && b == [b[0]] + b[1..];
      LessTotal(a[1..], b[1..]);
    }
  }

  /** Keys strictly ascending from each entry to the next. */
  predicate Sorted(e: Entries) {
    forall i | 0 <= i < |e| - 1 :: Less(e[i].0, e[i + 1].0)
  }

  /** The value stored under k. */
  function Find(e: Entries, k: string): Option<Blob> {
    if e == [] then None
    else if e[0].0 == k then Some(e[0].1)
    else Find(e[1..], k)
  }

  /** A key below the first key of a sorted table is not in it. */
  lemma {:induction false} FindBelowFirst(e: Entries, k: string)
    requires Sorted(e) && e != [] && Less(k, e[0].0)
    ensures Find(e, k) == None
  {
    if |e| > 1 {
      LessTransitive(k, e[0].0, e[1].0);
      assert Sorted(e[1..]);
      FindBelowFirst(e[1..], k);
    }
    LessIrreflexive(k);
  }

  /** txn.Set(k, v): the table with k bound to v, in key order. */
  function Insert(e: Entries, k: string, v: Blob): (r: Entries)
    requires Sorted(e)
    ensures Sorted(r)
    ensures r != [] && (r[0].0 == k || (e != [] && r[0].0 == e[0].0))
    ensures forall j :: Find(r, j) == if j == k then Some(v) else Find(e, j)
    decreases |e|
  {
    if e == [] then [(k, v)]
    else if e[0].0 == k then [(k, v)] + e[1..]
    else if Less(k, e[0].0) then [(k, v)] + e
    else
      LessTotal(k, e[0].0);
      [e[0]] + Insert(e[1..], k, v)
  }

  // ---------------------------------------------------------------
  // What the iterator loops compute

  /** The number of trace keys. */
  function TraceKeyCount(e: Entries): nat {
    if e == [] then 0
    else (if IsTraceKey(e[0].0) then 1 else 0) + TraceKeyCount(e[1..])
  }

  /** Some record under a trace key fails to decode. */
  predicate HasMalformedTrace(e: Entries) {
    exists i | 0 <= i < |e| :: IsTraceKey(e[i].0) && e[i].1.Malformed?
  }

  /**
   * The GetTraces loop from entry e[0] on, with `limit` records still
   * wanted: the first `limit` records under trace keys in key order, or the
   * first decoding error met before that many were read.
   */
  function ScanTraces(e: Entries, limit: int): Result<seq<Record>, string>
    decreases |e|
  {
    if e == [] || limit <= 0 then Success([])
    else if !IsTraceKey(e[0].0) then ScanTraces(e[1..], limit)
    else match e[0].1
      case Malformed(reason) => Failure("failed to get traces: failed to unmarshal trace: " + reason)
      case Encoded(t) =>
        match ScanTraces(e[1..], limit - 1)
        case Success(rest) => Success([t] + rest)
        case Failure(err) => Failure(err)
  }

  /** The records already read, put in front of what the rest of the scan yields. */
  function Prepend(done: seq<Record>, r: Result<seq<Record>, string>): Result<seq<Record>, string> {
    match r
    case Success(rest) => Success(done + rest)
    case Failure(err) => Failure(err)
  }

  lemma PrependNothing(r: Result<seq<Record>, string>)
    ensures Prepend([], r) == r
  {
    if r.Success? { assert [] + r.value == r.value; }
  }

  lemma PrependOne(done: seq<Record>, t: Record, r: Result<seq<Record>, string>)
    ensures Prepend(done, Prepend([t], r)) == Prepend(done + [t], r)
  {
    if r.Success? { assert done + ([t] + r.value) == done + [t] + r.value; }
  }

  datatype Stats = Stats(totalTraces: nat, totalSpans: nat)

  /** The number of spans a record counts for: the length of its "spans" array, or 0. */
  function SpanCount(t: Record): nat {
    if "spans" in t && t["spans"].JArr? then |t["spans"].items| else 0
  }

  /** The GetStats loop from entry e[0] on: the counts, or the first decoding error. */
  function StatsOf(e: Entries): Result<Stats, string>
    decreases |e|
  {
    if e == [] then Success(Stats(0, 0))
    else if !IsTraceKey(e[0].0) then StatsOf(e[1..])
    else match e[0].1
      case Malformed(reason) => Failure("failed to get stats: " + reason)
      case Encoded(t) =>
        match StatsOf(e[1..])
        case Success(s) => Success(Stats(s.totalTraces + 1, s.totalSpans + SpanCount(t)))
        case Failure(err) => Failure(err)
  }

  function Min(a: int, b: int): int {
    if a <= b then a else b
  }

  /** Whether t is stored, encoded, under some trace key. */
  predicate StoredUnderTraceKey(e: Entries, t: Record) {
    exists i | 0 <= i < |e| :: IsTraceKey(e[i].0) && e[i].1 == Encoded(t)
  }

  /** A malformed trace record is in the head entry or in the rest. */
  lemma MalformedSplit(e: Entries)
    requires e != []
    ensures HasMalformedTrace(e) <==>
      (IsTraceKey(e[0].0) && e[0].1.Malformed?) || HasMalformedTrace(e[1..])
  {
    if HasMalformedTrace(e[1..]) {
      var i :| 0 <= i < |e[1..]| && IsTraceKey(e[1..][i].0) && e[1..][i].1.Malformed?;
      assert e[i + 1] == e[1..][i];
    }
    if HasMalformedTrace(e) && !(IsTraceKey(e[0].0) && e[0].1.Malformed?) {
      var i :| 0 <= i < |e| && IsTraceKey(e[i].0) && e[i].1.Malformed?;
      assert e[1..][i - 1] == e[i];
    }
  }

  lemma StoredTail(e: Entries, t: Record)
    requires e != [] && StoredUnderTraceKey(e[1..], t)
    ensures StoredUnderTraceKey(e, t)
  {
    var i :| 0 <= i < |e[1..]| && IsTraceKey(e[1..][i].0) && e[1..][i].1 == Encoded(t);
    assert e[i + 1] == e[1..][i];
  }

  /** GetTraces fails only on a trace record that does not decode. */
  lemma {:induction false} ScanTracesFailure(e: Entries, limit: int)
    ensures ScanTraces(e, limit).Failure? ==> HasMalformedTrace(e)
    decreases |e|
  {
    if e != [] && limit > 0 {
      MalformedSplit(e);
      if IsTraceKey(e[0].0) {
        ScanTracesFailure(e[1..], limit - 1);
      } else {
        ScanTracesFailure(e[1..], limit);
      }
    }
  }

  /**
   * A trace record that does not decode makes GetTraces fail whenever the
   * limit does not stop the scan before every trace record is read.
   */
  lemma {:induction false} ScanTracesFailsOnMalformed(e: Entries, limit: int)
    requires HasMalformedTrace(e) && limit >= TraceKeyCount(e)
    ensures ScanTraces(e, limit).Failure?
    decreases |e|
  {
    MalformedSplit(e);
    if IsTraceKey(e[0].0) {
      if e[0].1.Encoded? {
        ScanTracesFailsOnMalformed(e[1..], limit - 1);
      }
    } else {
      ScanTracesFailsOnMalformed(e[1..], limit);
    }
  }

  /** With every trace record decodable, GetTraces returns min(limit, number of trace keys) records. */
  lemma {:induction false} ScanTracesLength(e: Entries, limit: int)
    requires !HasMalformedTrace(e)
    ensures ScanTraces(e, limit).Success?
    ensures |ScanTraces(e, limit).value| == if limit <= 0 then 0 else Min(limit, TraceKeyCount(e))
    decreases |e|
  {
    if e != [] && limit > 0 {
      MalformedSplit(e);
      if IsTraceKey(e[0].0) {
        ScanTracesLength(e[1..], limit - 1);
      } else {
        ScanTracesLength(e[1..], limit);
      }
    }
  }

  /** GetTraces returns at most `limit` records, each of them stored under a trace key. */
  lemma {:induction false} ScanTracesSound(e: Entries, limit: int)
    requires ScanTraces(e, limit).Success?
    ensures |ScanTraces(e, limit).value| <= if limit <= 0 then 0 else limit
    ensures forall k | 0 <= k < |ScanTraces(e, limit).value| ::
      StoredUnderTraceKey(e, ScanTraces(e, limit).value[k])
    decreases |e|
  {
    if e != [] && limit > 0 {
      var r := ScanTraces(e, limit).value;
      if !IsTraceKey(e[0].0) {
        ScanTracesSound(e[1..], limit);
        forall k | 0 <= k < |r| ensures StoredUnderTraceKey(e, r[k]) {
          StoredTail(e, r[k]);
        }
      } else {
        var rest := ScanTraces(e[1..], limit - 1).value;
        ScanTracesSound(e[1..], limit - 1);
        assert r == [e[0].1.record] + rest;
        forall k | 0 <= k < |r| ensures StoredUnderTraceKey(e, r[k]) {
          if k == 0 {
            assert IsTraceKey(e[0].0) && e[0].1 == Encoded(r[0]);
          } else {
            assert r[k] == rest[k - 1];
            StoredTail(e, r[k]);
          }
        }
      }
    }
  }

  /** GetStats fails exactly when a record does not decode; otherwise total_traces is the number of trace keys. */
  lemma {:induction false} StatsOfSpec(e: Entries)
    ensures StatsOf(e).Failure? <==> HasMalformedTrace(e)
    ensures StatsOf(e).Success? ==> StatsOf(e).value.totalTraces == TraceKeyCount(e)
    decreases |e|
  {
    if e != [] {
      MalformedSplit(e);
      StatsOfSpec(e[1..]);
    }
  }

  /** Writing a new trace key adds one to the count of trace keys; rewriting an existing key adds none. */
  lemma {:induction false} InsertTraceKeyCount(e: Entries, k: string, v: Blob)
    requires Sorted(e) && IsTraceKey(k)
    ensures TraceKeyCount(Insert(e, k, v)) == TraceKeyCount(e) + (if Find(e, k) == None then 1 else 0)
    decreases |e|
  {
    if e == [] {
    } else if e[0].0 == k {
      assert Insert(e, k, v)[1..] == e[1..];
    } else if Less(k, e[0].0) {
      FindBelowFirst(e, k);
      assert Insert(e, k, v)[1..] == e;
    } else {
      LessTotal(k, e[0].0);
      assert Sorted(e[1..]);
      InsertTraceKeyCount(e[1..], k, v);
      assert Insert(e, k, v)[1..] == Insert(e[1..], k, v);
    }
  }

  // ---------------------------------------------------------------
  // The store

  class BadgerStore {
    /** The database contents, in key order. */
    var entries: Entries

    ghost predicate Valid()
      reads this
    {
      Sorted(entries)
    }

    /** A store over an empty database. */
    constructor ()
      ensures Valid() && entries == []
    {
      entries := [];
    }

    /**
     * StoreTrace: fails with "trace_id is required" unless trace_id is a
     * string; otherwise writes the record under "trace:" + trace_id,
     * replacing what was there and leaving every other key alone.
     */
    method StoreTrace(trace: Record) returns (err: Option<string>)
      requires Valid()
      modifies this
      ensures Valid()
      ensures !("trace_id" in trace && trace["trace_id"].JStr?) ==>
        err == Some("trace_id is required") && entries == old(entries)
      ensures "trace_id" in trace && trace["trace_id"].JStr? ==> err == None
      ensures "trace_id" in trace && trace["trace_id"].JStr? ==>
        forall k :: Find(entries, k) ==
          if k == TraceKey(trace["trace_id"].s) then Some(Encoded(trace)) else Find(old(entries), k)
    {
      if !("trace_id" in trace && trace["trace_id"].JStr?) {
        return Some("trace_id is required");
      }
      var key := TraceKey(trace["trace_id"].s);
      entries := Insert(entries, key, Encoded(trace));
      err := None;
    }

    /** GetTrace: the record under "trace:" + id, "trace not found", or the decoding error. */
    method GetTrace(id: string) returns (r: Result<Record, string>)
      ensures Find(entries, TraceKey(id)) == None ==> r == Failure("trace not found")
      ensures Find(entries, TraceKey(id)) == Some(Encoded(r.value)) <== r.Success?
      ensures forall t :: Find(entries, TraceKey(id)) == Some(Encoded(t)) ==> r == Success(t)
      ensures forall m :: Find(entries, TraceKey(id)) == Some(Malformed(m)) ==> r == Failure(m)
    {
      var item := Find(entries, TraceKey(id));
      match item
      case None => r := Failure("trace not found");
      case Some(Malformed(reason)) => r := Failure(reason);
      case Some(Encoded(t)) => r := Success(t);
    }

    /** GetTraces: iterates the trace keys in order, stopping once `limit` records are read. */
    method GetTraces(limit: int) returns (r: Result<seq<Record>, string>)
      ensures r == ScanTraces(entries, limit)
    {
      var traces: seq<Record> := [];
      var count := 0;
      var i := 0;
      assert entries[i..] == entries;
      PrependNothing(ScanTraces(entries, limit));
      while i < |entries| && count < limit
        invariant 0 <= i <= |entries|
        invariant ScanTraces(entries, limit) == Prepend(traces, ScanTraces(entries[i..], limit - count))
      {
        var (key, value) := entries[i];
        assert entries[i..][0] == entries[i] && entries[i..][1..] == entries[i + 1..];
        if IsTraceKey(key) {
          match value {
            case Malformed(reason) =>
              return Failure("failed to get traces: failed to unmarshal trace: " + reason);
            case Encoded(t) =>
              PrependOne(traces, t, ScanTraces(entries[i + 1..], limit - count - 1));
              traces := traces + [t];
              count := count + 1;
          }
        }
        i := i + 1;
      }
      assert traces + [] == traces;
      r := Success(traces);
    }

    /** GetStats: counts trace keys and their spans over the whole database. */
    method GetStats() returns (r: Result<Stats, string>)
      ensures r == StatsOf(entries)
    {
      var totalTraces: nat, totalSpans: nat := 0, 0;
      var i := 0;
      assert entries[i..] == entries;
      while i < |entries|
        invariant 0 <= i <= |entries|
        invariant StatsOf(entries) ==
          match StatsOf(entries[i..])
          case Success(s) => Success(Stats(totalTraces + s.totalTraces, totalSpans + s.totalSpans))
          case Failure(err) => Failure(err)
      {
        var (key, value) := entries[i];
        assert entries[i..][0] == entries[i] && entries[i..][1..] == entries[i + 1..];
        if IsTraceKey(key) {
          match value {
            case Malformed(reason) =>
              return Failure("failed to get stats: " + reason);
            case Encoded(t) =>
              totalTraces := totalTraces + 1;
              totalSpans := totalSpans + SpanCount(t);
          }
        }
        i := i + 1;
      }
      r := Success(Stats(totalTraces, totalSpans));
    }
  }

  /** A trace stored with a string trace_id is what GetTrace returns for that id. */
  method StoreThenGet(store: BadgerStore, t: Record) returns (r: Result<Record, string>)
    requires store.Valid() && "trace_id" in t && t["trace_id"].JStr?
    modifies store
    ensures r == Success(t) && r.value["trace_id"] == t["trace_id"]
  {
    var err := store.StoreTrace(t);
    r := store.GetTrace(t["trace_id"].s);
  }

  /** A new store lists no traces and counts zero traces and zero spans. */
  method EmptyStore(limit: int) returns (traces: Result<seq<Record>, string>, stats: Result<Stats, string>)
    ensures traces == Success([])
    ensures stats == Success(Stats(0, 0))
  {
    var store := new BadgerStore();
    traces := store.GetTraces(limit);
    stats := store.GetStats();
  }
}
