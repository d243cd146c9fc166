/** The `JsonValue` tree and its `Serialize` implementation. */
module Json {
  import opened Wrappers

  /** An `f64`, kept opaque as its 64-bit pattern: nothing here computes with it. */
  datatype F64 = F64(bits: bv64)

  /** A JSON value as the crate defines it: there is no array variant. */
  datatype JsonValue =
    | JsonString(str: string)
    | JsonNumber(num: F64)
    | JsonBool(b: bool)
    | JsonNull
    | JsonObject(m: map<string, JsonValue>)

  /** The calls a serde `Serializer` can receive, as a tree: one node per call,
      with the calls made between `serialize_map` and `end` as its entries.
      A map entry's key reaches the serializer through `serialize_str`. The
      iteration order of the source's `HashMap` is unspecified, so entries are
      a map. */
  datatype Ser =
    | SerBool(b: bool)
    | SerF64(f: F64)
    | SerStr(s: string)
    | SerNone
    | SerSome(inner: Ser)
    | SerUnit
    | SerSeq(seqLen: Option<nat>, items: seq<Ser>)
    | SerMap(mapLen: Option<nat>, entries: map<string, Ser>)

  /** True when `e` opens a sequence anywhere in its tree. */
  predicate EmitsSequence(e: Ser)
  {
    match e
    case SerSeq(_, _) => true
    case SerSome(inner) => EmitsSequence(inner)
    case SerMap(_, entries) => exists k | k in entries :: EmitsSequence(entries[k])
    case _ => false
  }

  /** True when `e` has the shape a JSON value can produce: only strings,
      f64s, bools, `none` and maps whose announced length is their number of
      entries, all the way down. */
  predicate JsonShaped(e: Ser)
  {
    match e
    case SerStr(_) => true
    case SerF64(_) => true
    case SerBool(_) => true
    case SerNone => true
    case SerMap(len, entries) =>
      && len == Some(|entries|)
      && forall k | k in entries :: JsonShaped(entries[k])
    case _ => false
  }

  /** The JSON value an event tree denotes, or `None` when it is not JSON-shaped.
      The lemmas below compare the serializer with this reading. */
  function ValueOf(e: Ser): Option<JsonValue>
  {
    match e
    case SerStr(s) => Some(JsonString(s))
    case SerF64(f) => Some(JsonNumber(f))
    case SerBool(b) => Some(JsonBool(b))
    case SerNone => Some(JsonNull)
    case SerMap(len, entries) =>
      if len == Some(|entries|) && forall k | k in entries :: ValueOf(entries[k]).Some?
      then Some(JsonObject(map k | k in entries :: ValueOf(entries[k]).value))
      else None
    case _ => None
  }

  /** `Serialize::serialize` for `JsonValue`: the calls it makes on the serializer. */
  function Serialize(v: JsonValue): (e: Ser)
    ensures JsonShaped(e)
    ensures v.JsonString? <==> e.SerStr?
    ensures v.JsonNumber? <==> e.SerF64?
    ensures v.JsonBool? <==> e.SerBool?
    ensures v.JsonNull? <==> e.SerNone?
    ensures v.JsonObject? <==> e.SerMap?
    ensures v.JsonString? ==> e.s == v.str
    ensures v.JsonNumber? ==> e.f == v.num
    ensures v.JsonBool? ==> e.b == v.b
    ensures v.JsonObject? ==> e.mapLen == Some(|v.m|) && e.entries.Keys == v.m.Keys
  {
    match v
    case JsonString(s) => SerStr(s)
    case JsonNumber(n) => SerF64(n)
    case JsonBool(b) => SerBool(b)
    case JsonNull => SerNone
    case JsonObject(m) =>
      var entries := map k | k in m :: Serialize(m[k]);
      assert entries.Keys == m.Keys;
      SerMap(Some(|m|), entries)
  }

  /** Every entry of a serialized object is the serialization of the value
      stored under the same key. */
  lemma SerializeEntries(m: map<string, JsonValue>, k: string)
    requires k in m
    ensures k in Serialize(JsonObject(m)).entries
    ensures Serialize(JsonObject(m)).entries[k] == Serialize(m[k])
  {
  }

  /** A serialized value never contains a sequence. */
  lemma {:induction false} SerializeEmitsNoSequence(v: JsonValue)
    ensures !EmitsSequence(Serialize(v))
  {
    match v
    case JsonObject(m) =>
      forall k | k in m
        ensures !EmitsSequence(Serialize(m[k]))
      {
        SerializeEmitsNoSequence(m[k]);
      }
    case _ =>
  }

  /** The reference reading recovers every value from its serialization. */
  lemma {:induction false} ValueOfSerialize(v: JsonValue)
    ensures ValueOf(Serialize(v)) == Some(v)
  {
    match v
    case JsonObject(m) =>
      var e := Serialize(v);
      var entries := e.entries;
      forall k | k in entries
        ensures ValueOf(entries[k]) == Some(m[k])
      {
        ValueOfSerialize(m[k]);
      }
      assert |entries| == |entries.Keys| == |m.Keys| == |m|;
      assert e == SerMap(Some(|entries|), entries);
      assert forall k | k in entries :: ValueOf(entries[k]).Some?;
      var back := map k | k in entries :: ValueOf(entries[k]).value;
      assert ValueOf(e) == Some(JsonObject(back));
      assert back == m;
    case _ =>
  }

  /** Every event tree with a reading is the serialization of that reading:
      `Serialize` produces exactly the trees `ValueOf` accepts. */
  lemma {:induction false} SerializeValueOf(e: Ser)
    requires ValueOf(e).Some?
    ensures Serialize(ValueOf(e).value) == e
  {
    match e
    case SerMap(len, entries) =>
      var m := ValueOf(e).value.m;
      assert m.Keys == entries.Keys;
      forall k | k in entries
        ensures Serialize(m[k]) == entries[k]
      {
        SerializeValueOf(entries[k]);
      }
      assert (map k | k in m :: Serialize(m[k])) == entries;
    case _ =>
  }

  /** `ValueOf` accepts exactly the JSON-shaped event trees. */
  lemma {:induction false} ValueOfDefinedIffShaped(e: Ser)
    ensures ValueOf(e).Some? <==> JsonShaped(e)
  {
    match e
    case SerMap(len, entries) =>
      forall k | k in entries
        ensures ValueOf(entries[k]).Some? <==> JsonShaped(entries[k])
      {
        ValueOfDefinedIffShaped(entries[k]);
      }
    case SerSome(inner) =>
    case SerSeq(_, _) =>
    case _ =>
  }

  /** Serialization is injective: different values are serialized differently. */
  lemma SerializeInjective(v1: JsonValue, v2: JsonValue)
    ensures Serialize(v1) == Serialize(v2) <==> v1 == v2
  {
    if Serialize(v1) == Serialize(v2) {
      ValueOfSerialize(v1);
      ValueOfSerialize(v2);
    }
  }
}
