/**
 * The keyed containers of Swift's Codable as JSONDecoder provides them:
 * reading one key of a JSON object as a given type, with the error each
 * kind of mismatch raises. Shared by the hand-written `init(from:)` of the
 * message, function-call and queued-call types.
 */
module KeyedContainer {
  import opened Wrappers
  import opened Binary64
  import opened DynamicValue

  datatype DecodingError =
    | NotAnObject             // container(keyedBy:) on a non-object
    | KeyNotFound(key: string)
    | ValueNotFound(key: string) // the key holds null
    | TypeMismatch(key: string)
    | DataCorrupted(key: string) // e.g. a string that is no raw value of the enum

  type Fields = map<string, Json>

  function Container(j: Json): (r: Result<Fields, DecodingError>)
    ensures r.Success? <==> j.JObject?
  {
    if j.JObject? then Success(j.fields) else Failure(NotAnObject)
  }

  /** `decode(String.self, forKey:)`. */
  function DecodeString(c: Fields, key: string): (r: Result<string, DecodingError>)
    ensures r.Success? <==> key in c && c[key].JString?
    ensures r.Success? ==> c[key] == JString(r.value)
  {
    if key !in c then Failure(KeyNotFound(key))
    else match c[key]
      case JNull => Failure(ValueNotFound(key))
      case JString(s) => Success(s)
      case _ => Failure(TypeMismatch(key))
  }

  /** `decodeIfPresent(String.self, forKey:)`: an absent key and a null both read as nil. */
  function DecodeStringIfPresent(c: Fields, key: string): (r: Result<Option<string>, DecodingError>)
    ensures r.Success? <==> key !in c || c[key].JNull? || c[key].JString?
    ensures r == Success(None) <==> key !in c || c[key].JNull?
    ensures r.Success? && r.value.Some? ==> c[key] == JString(r.value.value)
  {
    if key !in c then Success(None)
    else match c[key]
      case JNull => Success(None)
      case JString(s) => Success(Some(s))
      case _ => Failure(TypeMismatch(key))
  }

  /**
   * `decode(Int.self, forKey:)`: any numeral that is a whole number within
   * Int64's range, however it is written; another numeral does not fit.
   */
  function DecodeInt(c: Fields, key: string): (r: Result<Int64, DecodingError>)
    ensures r.Success? <==> key in c && (c[key].JInt? || (c[key].JDouble? && WholeInt(c[key].d).Some?))
    ensures r.Success? && c[key].JInt? ==> r.value == c[key].i
    ensures r.Success? && c[key].JDouble? ==> r.value == IntegralValue(c[key].d).value
    ensures key in c && c[key].JDouble? && r.Failure? ==> r.error == DataCorrupted(key)
  {
    if key !in c then Failure(KeyNotFound(key))
    else match c[key]
      case JNull => Failure(ValueNotFound(key))
      case JInt(i) => Success(i)
      case JDouble(d) => if WholeInt(d).Some? then Success(WholeInt(d).value) else Failure(DataCorrupted(key))
      case _ => Failure(TypeMismatch(key))
  }

  /**
   * `decode(Double.self, forKey:)`, also how a `Date` is read: any numeral,
   * an integer one as the nearest double.
   */
  function DecodeDouble(c: Fields, key: string): (r: Result<FiniteDouble, DecodingError>)
    ensures r.Success? <==> key in c && (c[key].JDouble? || c[key].JInt?)
    ensures r.Success? && c[key].JDouble? ==> r.value == c[key].d
    ensures r.Success? && c[key].JInt? ==> r.value == IntToDouble(c[key].i)
  {
    if key !in c then Failure(KeyNotFound(key))
    else match c[key]
      case JNull => Failure(ValueNotFound(key))
      case JDouble(d) => Success(d)
      case JInt(i) => Success(IntToDouble(i))
      case _ => Failure(TypeMismatch(key))
  }

  /**
   * The double a finite double reads back as after JSONEncoder wrote it:
   * itself, but a negative zero, written "-0" and read as the integer 0,
   * comes back as a positive zero.
   */
  function ReadBack(d: FiniteDouble): (r: FiniteDouble)
    ensures DoubleEquals(r, d)
    ensures !IsZero(d) ==> r == d
  {
    match NumberToken(d)
    case JInt(i) => WholeDoubleReadsBack(d); IntToDouble(i)
    case JDouble(e) => e
  }

  /** A double written as its numeral reads back, through `decode(Double.self)`, as `ReadBack` of it. */
  lemma DoubleRoundTrip(d: FiniteDouble, c: Fields, key: string)
    requires key in c && c[key] == NumberToken(d)
    ensures DecodeDouble(c, key) == Success(ReadBack(d))
  {
  }

  /** `decode([String: AnyCodable].self, forKey:)`. */
  function DecodeDictionary(c: Fields, key: string): (r: Result<map<string, Any>, DecodingError>)
    ensures r.Success? <==> key in c && c[key].JObject?
    ensures r.Success? ==> r.value == DecodeMap(c[key].fields)
  {
    if key !in c then Failure(KeyNotFound(key))
    else match c[key]
      case JNull => Failure(ValueNotFound(key))
      case JObject(m) => Success(DecodeMap(m))
      case _ => Failure(TypeMismatch(key))
  }

  /** `decodeIfPresent(AnyCodable.self, forKey:)`: nil for an absent key and for null. */
  function DecodeAnyIfPresent(c: Fields, key: string): (r: Option<Any>)
    ensures r.None? <==> key !in c || c[key].JNull?
    ensures r.Some? ==> r.value == Decode(c[key])
  {
    if key !in c || c[key].JNull? then None else Some(Decode(c[key]))
  }

  /** `encodeIfPresent`: the key is written only for a non-nil value. */
  function PutIfPresent(c: Fields, key: string, v: Option<Json>): (r: Fields)
    ensures v.None? ==> r == c
    ensures v.Some? ==> r == c[key := v.value]
  {
    if v.Some? then c[key := v.value] else c
  }
}
