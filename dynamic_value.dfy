/**
 * AnyCodable (Sources/Models/FunctionCall.swift): a box around a dynamically
 * typed Swift value, encoded to and decoded from a JSON tree by case analysis.
 *
 * `Any` is the boxed value. Its cases are the kinds AnyCodable's encoder
 * accepts, plus `Unencodable`, which stands for every other Swift value
 * (a Date, a UUID, a struct ...) that may sit in an `Any`. `Json` is the
 * tree JSONEncoder writes and JSONDecoder reads; its text form is not part
 * of this model, except for what it does to numbers: JSONEncoder refuses a
 * NaN or an infinity, writes a whole double as an integer numeral, and a
 * numeral reads as an `Int` whenever it is a whole number within Int64's
 * range, so a whole double comes back as an `IntValue`.
 */
module DynamicValue {
  import opened Wrappers
  import opened Binary64

  const MinInt64: int := -0x8000_0000_0000_0000
  const MaxInt64: int := 0x7FFF_FFFF_FFFF_FFFF

  /** Swift's `Int` on a 64-bit platform. */
  type Int64 = x: int | MinInt64 <= x <= MaxInt64

  datatype Any =
    | NullValue                          // NSNull()
    | BoolValue(b: bool)
    | IntValue(i: Int64)
    | DoubleValue(d: Double)
    | StringValue(s: string)
    | ArrayValue(items: seq<Any>)        // [Any]
    | DictValue(entries: map<string, Any>) // [String: Any]
    | Unencodable(typeName: string)      // any other Swift value

  datatype Json =
    | JNull
    | JBool(b: bool)
    | JInt(i: Int64)                     // a numeral that is a whole number within Int64's range
    | JDouble(d: FiniteDouble)           // any other numeral, as the double it reads as
    | JString(s: string)
    | JArray(items: seq<Json>)
    | JObject(fields: map<string, Json>)

  /** EncodingError.invalidValue: some nested value is of no encodable kind, or is a NaN or an infinity. */
  datatype EncodingError = InvalidValue

  /** The whole number a double reads back as through `decode(Int.self)`, if it is one within Int64's range. */
  function WholeInt(d: Double): (r: Option<Int64>)
    ensures r.Some? <==> IntegralValue(d).Some? && MinInt64 <= IntegralValue(d).value <= MaxInt64
    ensures r.Some? ==> r.value == IntegralValue(d).value
  {
    match IntegralValue(d)
    case Some(w) => if MinInt64 <= w <= MaxInt64 then Some(w) else None
    case None => None
  }

  /** The numeral JSONEncoder writes for a finite double: a whole number as an integer. */
  function NumberToken(d: FiniteDouble): (j: Json)
    ensures j.JInt? <==> WholeInt(d).Some?
    ensures j.JInt? ==> j.i == IntegralValue(d).value
    ensures j.JDouble? ==> j.d == d
  {
    match WholeInt(d)
    case Some(w) => JInt(w)
    case None => JDouble(d)
  }

  /** The values AnyCodable's encoder accepts, at every depth. */
  predicate Encodable(v: Any) {
    match v
    case Unencodable(_) => false
    case DoubleValue(d) => d.Finite?
    case ArrayValue(items) => forall i :: 0 <= i < |items| ==> Encodable(items[i])
    case DictValue(entries) => forall k :: k in entries ==> Encodable(entries[k])
    case _ => true
  }

  predicate EncodableMap(m: map<string, Any>) {
    forall k :: k in m ==> Encodable(m[k])
  }

  /**
   * The JSON node that stands for a value: the same kind, the same scalar,
   * a number for a number (an integer read from a whole double included),
   * and as many items or the same keys for a container.
   */
  predicate Mirrors(v: Any, j: Json) {
    match v
    case NullValue => j == JNull
    case BoolValue(b) => j == JBool(b)
    case IntValue(i) => j == JInt(i) || (j.JDouble? && WholeInt(j.d) == Some(i))
    case DoubleValue(d) => d.Finite? && j == NumberToken(d)
    case StringValue(s) => j == JString(s)
    case ArrayValue(items) => j.JArray? && |j.items| == |items|
    case DictValue(entries) => j.JObject? && j.fields.Keys == entries.Keys
    case Unencodable(_) => false
  }

  /** AnyCodable.encode(to:): one case per accepted kind, arrays and dictionaries element-wise. */
  function Encode(v: Any): (r: Result<Json, EncodingError>)
    ensures r.Success? ==> Mirrors(v, r.value)
    ensures v.Unencodable? || (v.DoubleValue? && !v.d.Finite?) ==> r.Failure?
  {
    match v
    case NullValue => Success(JNull)
    case BoolValue(b) => Success(JBool(b))
    case IntValue(i) => Success(JInt(i))
    case DoubleValue(d) => if d.Finite? then Success(NumberToken(d)) else Failure(InvalidValue)
    case StringValue(s) => Success(JString(s))
    case ArrayValue(items) =>
      if forall i :: 0 <= i < |items| ==> Encode(items[i]).Success? then
        Success(JArray(seq(|items|, i requires 0 <= i < |items| => Encode(items[i]).value)))
      else Failure(InvalidValue)
    case DictValue(entries) =>
      if forall k :: k in entries ==> Encode(entries[k]).Success? then
        Success(JObject(map k | k in entries :: Encode(entries[k]).value))
      else Failure(InvalidValue)
    case Unencodable(_) => Failure(InvalidValue)
  }

  /** `[String: AnyCodable]` encoded as a keyed object. */
  function EncodeMap(m: map<string, Any>): Result<map<string, Json>, EncodingError> {
    match Encode(DictValue(m))
    case Success(j) => Success(j.fields)
    case Failure(e) => Failure(e)
  }

  /**
   * AnyCodable.init(from:): tries null, Bool, Int, Double, String, array and
   * dictionary in that order. Every JSON tree is one of these, so the
   * final `throw` of the source is never reached and decoding is total.
   * Because Int is tried before Double, a whole numeral within Int64's
   * range reads as an `IntValue` however it is written.
   */
  function Decode(j: Json): (r: Any)
    ensures Mirrors(r, j)
  {
    if j.JNull? then NullValue
    else if j.JBool? then BoolValue(j.b)
    else if j.JInt? then IntValue(j.i)
    else if j.JDouble? then (if WholeInt(j.d).Some? then IntValue(WholeInt(j.d).value) else DoubleValue(j.d))
    else if j.JString? then StringValue(j.s)
    else if j.JArray? then ArrayValue(seq(|j.items|, i requires 0 <= i < |j.items| => Decode(j.items[i])))
    else DictValue(map k | k in j.fields :: Decode(j.fields[k]))
  }

  function DecodeMap(m: map<string, Json>): map<string, Any> {
    Decode(JObject(m)).entries
  }

  /**
   * What a value becomes after a trip through JSON: every double that is a
   * whole number within Int64's range turns into that `IntValue`.
   */
  function Normal(v: Any): (r: Any)
    ensures Encodable(v) ==> Encodable(r)
    ensures r.DoubleValue? ==> v == r && WholeInt(v.d).None?
    ensures !v.DoubleValue? ==> v.ArrayValue? == r.ArrayValue? && v.DictValue? == r.DictValue?
  {
    match v
    case DoubleValue(d) => if WholeInt(d).Some? then IntValue(WholeInt(d).value) else v
    case ArrayValue(items) => ArrayValue(seq(|items|, i requires 0 <= i < |items| => Normal(items[i])))
    case DictValue(entries) => DictValue(map k | k in entries :: Normal(entries[k]))
    case _ => v
  }

  function NormalMap(m: map<string, Any>): (r: map<string, Any>)
    ensures r.Keys == m.Keys
  {
    Normal(DictValue(m)).entries
  }

  /** The tree JSONEncoder would write for what a tree decodes to: whole numerals become integers. */
  function Canonical(j: Json): (r: Json)
    ensures !r.JDouble? || WholeInt(r.d).None?
    ensures j.JArray? == r.JArray? && j.JObject? == r.JObject?
  {
    match j
    case JDouble(d) => NumberToken(d)
    case JArray(items) => JArray(seq(|items|, i requires 0 <= i < |items| => Canonical(items[i])))
    case JObject(fields) => JObject(map k | k in fields :: Canonical(fields[k]))
    case _ => j
  }

  /** Encoding succeeds exactly for the accepted kinds, recursively. */
  lemma {:induction false} EncodeSucceedsIff(v: Any)
    ensures Encode(v).Success? <==> Encodable(v)
  {
    match v
    case ArrayValue(items) =>
      forall i | 0 <= i < |items| ensures Encode(items[i]).Success? <==> Encodable(items[i]) {
        EncodeSucceedsIff(items[i]);
      }
    case DictValue(entries) =>
      forall k | k in entries ensures Encode(entries[k]).Success? <==> Encodable(entries[k]) {
        EncodeSucceedsIff(entries[k]);
      }
    case _ =>
  }

  /**
   * decode(encode(v)) is v for encodable values of any depth, except that
   * each whole double within Int64's range comes back as an `IntValue`.
   */
  lemma {:induction false} DecodeEncode(v: Any)
    requires Encodable(v)
    ensures Encode(v).Success? && Decode(Encode(v).value) == Normal(v)
  {
    EncodeSucceedsIff(v);
    match v
    case ArrayValue(items) =>
      var j := Encode(v).value;
      forall i | 0 <= i < |items| ensures Decode(j.items[i]) == Normal(items[i]) {
        DecodeEncode(items[i]);
      }
      assert Decode(j).items == Normal(v).items;
    case DictValue(entries) =>
      var j := Encode(v).value;
      forall k | k in entries ensures Decode(j.fields[k]) == Normal(entries[k]) {
        DecodeEncode(entries[k]);
      }
      assert Decode(j).entries == Normal(v).entries;
    case _ =>
  }

  /** A value without whole doubles is its own normal form, so it round-trips exactly. */
  lemma {:induction false} NormalIdentity(v: Any)
    requires NoWholeDoubles(v)
    ensures Normal(v) == v
  {
    match v
    case ArrayValue(items) =>
      forall i | 0 <= i < |items| ensures Normal(items[i]) == items[i] {
        NormalIdentity(items[i]);
      }
      assert Normal(v).items == items;
    case DictValue(entries) =>
      forall k | k in entries ensures Normal(entries[k]) == entries[k] {
        NormalIdentity(entries[k]);
      }
      assert Normal(v).entries == entries;
    case _ =>
  }

  /** No double at any depth is a whole number within Int64's range. */
  predicate NoWholeDoubles(v: Any) {
    match v
    case DoubleValue(d) => WholeInt(d).None?
    case ArrayValue(items) => forall i :: 0 <= i < |items| ==> NoWholeDoubles(items[i])
    case DictValue(entries) => forall k :: k in entries ==> NoWholeDoubles(entries[k])
    case _ => true
  }

  /** A decoded value holds no whole double: such a numeral reads as an `IntValue`. */
  lemma {:induction false} DecodedHasNoWholeDoubles(j: Json)
    ensures NoWholeDoubles(Decode(j))
  {
    match j
    case JArray(items) =>
      forall i | 0 <= i < |items| ensures NoWholeDoubles(Decode(items[i])) {
        DecodedHasNoWholeDoubles(items[i]);
      }
    case JObject(fields) =>
      forall k | k in fields ensures NoWholeDoubles(Decode(fields[k])) {
        DecodedHasNoWholeDoubles(fields[k]);
      }
    case _ =>
  }

  /** A normal value is left alone by a second trip. */
  lemma {:induction false} NormalIdempotent(v: Any)
    ensures Normal(Normal(v)) == Normal(v)
  {
    match v
    case ArrayValue(items) =>
      forall i | 0 <= i < |items| ensures Normal(Normal(items[i])) == Normal(items[i]) {
        NormalIdempotent(items[i]);
      }
      assert Normal(Normal(v)).items == Normal(v).items;
    case DictValue(entries) =>
      forall k | k in entries ensures Normal(Normal(entries[k])) == Normal(entries[k]) {
        NormalIdempotent(entries[k]);
      }
      assert Normal(Normal(v)).entries == Normal(v).entries;
    case _ =>
  }

  /** Encoding does not tell a value from its normal form: a whole double and its integer write the same numeral. */
  lemma {:induction false} EncodeNormal(v: Any)
    requires Encodable(v)
    ensures Encode(Normal(v)) == Encode(v)
  {
    EncodeSucceedsIff(v);
    EncodeSucceedsIff(Normal(v));
    match v
    case ArrayValue(items) =>
      var n := Normal(v).items;
      forall i | 0 <= i < |items| ensures Encode(n[i]) == Encode(items[i]) {
        EncodeNormal(items[i]);
      }
      assert Encode(Normal(v)).value.items == Encode(v).value.items;
    case DictValue(entries) =>
      var n := Normal(v).entries;
      forall k | k in entries ensures Encode(n[k]) == Encode(entries[k]) {
        EncodeNormal(entries[k]);
      }
      assert Encode(Normal(v)).value.fields == Encode(v).value.fields;
    case _ =>
  }

  /**
   * Every JSON tree decodes to an encodable value, which encodes back to the
   * same tree except that whole numerals are written as integers.
   */
  lemma {:induction false} EncodeDecode(j: Json)
    ensures Encodable(Decode(j)) && Encode(Decode(j)) == Success(Canonical(j))
  {
    match j
    case JArray(items) =>
      forall i | 0 <= i < |items| ensures Encodable(Decode(items[i])) && Encode(Decode(items[i])) == Success(Canonical(items[i])) {
        EncodeDecode(items[i]);
      }
      assert Encode(Decode(j)).value.items == Canonical(j).items;
    case JObject(fields) =>
      forall k | k in fields ensures Encodable(Decode(fields[k])) && Encode(Decode(fields[k])) == Success(Canonical(fields[k])) {
        EncodeDecode(fields[k]);
      }
      assert Encode(Decode(j)).value.fields == Canonical(j).fields;
    case _ =>
  }

  /** A tree JSONEncoder wrote is canonical, so it survives a decode and re-encode unchanged. */
  lemma {:induction false} EncodedIsCanonical(v: Any)
    requires Encodable(v)
    ensures Encode(v).Success? && Canonical(Encode(v).value) == Encode(v).value
  {
    EncodeSucceedsIff(v);
    match v
    case ArrayValue(items) =>
      var j := Encode(v).value;
      forall i | 0 <= i < |items| ensures Canonical(j.items[i]) == j.items[i] {
        EncodedIsCanonical(items[i]);
      }
      assert Canonical(j).items == j.items;
    case DictValue(entries) =>
      var j := Encode(v).value;
      forall k | k in entries ensures Canonical(j.fields[k]) == j.fields[k] {
        EncodedIsCanonical(entries[k]);
      }
      assert Canonical(j).fields == j.fields;
    case _ =>
  }

  lemma EncodeMapRoundTrip(m: map<string, Any>)
    requires EncodableMap(m)
    ensures EncodeMap(m).Success? && DecodeMap(EncodeMap(m).value) == NormalMap(m)
  {
    DecodeEncode(DictValue(m));
  }

  lemma EncodeMapFailsIff(m: map<string, Any>)
    ensures EncodeMap(m).Failure? <==> !EncodableMap(m)
  {
    EncodeSucceedsIff(DictValue(m));
  }

  lemma DecodeMapEncodable(m: map<string, Json>)
    ensures EncodableMap(DecodeMap(m)) && EncodeMap(DecodeMap(m)) == Success(Canonical(JObject(m)).fields)
  {
    EncodeDecode(JObject(m));
  }
}
