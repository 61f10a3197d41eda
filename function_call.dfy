/**
 * FunctionCall, FunctionCallStatus and AnyCodable's equality
 * (Sources/Models/FunctionCall.swift): the in-memory record of a call the
 * server asked for, its Codable form, and the Equatable conformance the
 * type synthesises from its stored properties.
 */
module FunctionCalls {
  import opened Wrappers
  import opened Binary64
  import opened DynamicValue
  import opened KeyedContainer

  datatype FunctionCallStatus =
    | StatusPending | StatusExecuting | StatusSuccess | StatusError | StatusCancelled

  /** The raw value each status is serialised as. */
  function RawValue(s: FunctionCallStatus): string {
    match s
    case StatusPending => "pending"
    case StatusExecuting => "executing"
    case StatusSuccess => "success"
    case StatusError => "error"
    case StatusCancelled => "cancelled"
  }

  /** `FunctionCallStatus(rawValue:)`. */
  function StatusFromRaw(raw: string): Option<FunctionCallStatus> {
    if raw == "pending" then Some(StatusPending)
    else if raw == "executing" then Some(StatusExecuting)
    else if raw == "success" then Some(StatusSuccess)
    else if raw == "error" then Some(StatusError)
    else if raw == "cancelled" then Some(StatusCancelled)
    else None
  }

  /** The raw values are exactly the five status names, each naming one status. */
  lemma StatusRawValues(s: FunctionCallStatus, raw: string)
    ensures StatusFromRaw(raw) == Some(s) <==> raw == RawValue(s)
    ensures StatusFromRaw(raw).Some? <==> raw in {"pending", "executing", "success", "error", "cancelled"}
  {
  }

  /**
   * A `Date`, encoded by JSONEncoder's default strategy as the numeral of
   * its seconds since the reference date. Every date in the app is the
   * clock's or a decoded one, so the interval is finite.
   */
  datatype Date = Date(sinceReferenceDate: FiniteDouble)

  /** `Date`'s `==`: the intervals compared as doubles, so the two zeros are equal. */
  predicate DateEquals(a: Date, b: Date) {
    DoubleEquals(a.sinceReferenceDate, b.sinceReferenceDate)
  }

  datatype FunctionCall = FunctionCall(
    id: string,
    name: string,
    parameters: map<string, Any>,
    timestamp: Date,
    status: FunctionCallStatus,
    result: Option<Any>,
    error: Option<string>)

  /** `FunctionCall.init(id:name:parameters:timestamp:status:)`. */
  function NewFunctionCall(id: string, name: string, parameters: map<string, Any>, timestamp: Date,
                           status: FunctionCallStatus := StatusPending): (c: FunctionCall)
    ensures c.id == id && c.name == name && c.parameters == parameters && c.timestamp == timestamp
    ensures c.status == status && c.result == None && c.error == None
  {
    FunctionCall(id, name, parameters, timestamp, status, None, None)
  }

  function EncodeOptional(v: Option<Any>): Result<Option<Json>, EncodingError> {
    match v
    case None => Success(None)
    case Some(x) =>
      match Encode(x)
      case Success(j) => Success(Some(j))
      case Failure(e) => Failure(e)
  }

  function OptionalString(s: Option<string>): Option<Json> {
    if s.Some? then Some(JString(s.value)) else None
  }

  /**
   * `FunctionCall.encode(to:)`: id, name, parameters, timestamp and status
   * are always written, the status as its raw value; a nil result or error
   * leaves its key out.
   */
  function EncodeCall(c: FunctionCall): (r: Result<Json, EncodingError>)
    ensures r.Success? ==> r.value.JObject?
    ensures r.Success? ==> var f := r.value.fields;
      && {"id", "name", "parameters", "timestamp", "status"} <= f.Keys
      && f["id"] == JString(c.id) && f["name"] == JString(c.name)
      && f["timestamp"] == NumberToken(c.timestamp.sinceReferenceDate)
      && f["status"] == JString(RawValue(c.status))
      && ("result" in f <==> c.result.Some?)
      && ("error" in f <==> c.error.Some?)
  {
    var params :- EncodeMap(c.parameters);
    var result :- EncodeOptional(c.result);
    var fields := map[
      "id" := JString(c.id),
      "name" := JString(c.name),
      "parameters" := JObject(params),
      "timestamp" := NumberToken(c.timestamp.sinceReferenceDate),
      "status" := JString(RawValue(c.status))];
    Success(JObject(PutIfPresent(PutIfPresent(fields, "result", result), "error", OptionalString(c.error))))
  }

  /** `decode(FunctionCallStatus.self, forKey:)`: a string that must be one of the raw values. */
  function DecodeStatus(c: Fields, key: string): Result<FunctionCallStatus, DecodingError> {
    var raw :- DecodeString(c, key);
    match StatusFromRaw(raw)
    case Some(s) => Success(s)
    case None => Failure(DataCorrupted(key))
  }

  /**
   * `FunctionCall.init(from:)`, reading the keys in the source's order:
   * id, name, timestamp, status and parameters are required, result and
   * error may be missing.
   */
  function DecodeCall(j: Json): (r: Result<FunctionCall, DecodingError>)
    ensures r.Success? ==> j.JObject? && j.fields.Keys >= {"id", "name", "timestamp", "status", "parameters"}
    ensures r.Success? ==> j.fields["id"] == JString(r.value.id) && j.fields["name"] == JString(r.value.name)
    ensures r.Success? ==> j.fields["status"] == JString(RawValue(r.value.status))
    ensures r.Success? ==> j.fields["parameters"].JObject? && r.value.parameters == DecodeMap(j.fields["parameters"].fields)
  {
    var c :- Container(j);
    var id :- DecodeString(c, "id");
    var name :- DecodeString(c, "name");
    var timestamp :- DecodeDouble(c, "timestamp");
    var status :- DecodeStatus(c, "status");
    var parameters :- DecodeDictionary(c, "parameters");
    var result := DecodeAnyIfPresent(c, "result");
    var error :- DecodeStringIfPresent(c, "error");
    Success(FunctionCall(id, name, parameters, Date(timestamp), status, result, error))
  }

  /** An explicit null result reads back as nil: decodeIfPresent does not tell them apart. */
  function NullAsAbsent(v: Option<Any>): Option<Any> {
    if v == Some(NullValue) then None else v
  }

  predicate EncodableCall(c: FunctionCall) {
    EncodableMap(c.parameters) && (c.result.Some? ==> Encodable(c.result.value))
  }

  /** Encoding fails exactly when the parameters or the result hold a value of no encodable kind. */
  lemma EncodeCallSucceedsIff(c: FunctionCall)
    ensures EncodeCall(c).Success? <==> EncodableCall(c)
  {
    EncodeMapFailsIff(c.parameters);
    if c.result.Some? {
      EncodeSucceedsIff(c.result.value);
    }
  }

  /**
   * What a call becomes after a trip through JSON: whole doubles in the
   * parameters and the result turn into integers, a negative-zero
   * timestamp into a positive one, and a null result into nil.
   */
  function Reloaded(c: FunctionCall): (r: FunctionCall)
    ensures r.id == c.id && r.name == c.name && r.status == c.status && r.error == c.error
    ensures r.parameters.Keys == c.parameters.Keys
    ensures DateEquals(r.timestamp, c.timestamp)
    ensures r.result.Some? ==> c.result.Some? && c.result.value != NullValue
  {
    var result := if c.result.Some? then Some(Normal(c.result.value)) else None;
    c.(parameters := NormalMap(c.parameters),
       timestamp := Date(ReadBack(c.timestamp.sinceReferenceDate)),
       result := NullAsAbsent(result))
  }

  /** The fields `EncodeCall` writes, read one key at a time the way `DecodeCall` reads them. */
  lemma DecodeEncodedFields(c: FunctionCall) returns (f: Fields)
    requires EncodableCall(c)
    ensures EncodeCall(c) == Success(JObject(f))
    ensures DecodeString(f, "id") == Success(c.id)
    ensures DecodeString(f, "name") == Success(c.name)
    ensures DecodeDouble(f, "timestamp") == Success(Reloaded(c).timestamp.sinceReferenceDate)
    ensures DecodeStatus(f, "status") == Success(c.status)
    ensures DecodeDictionary(f, "parameters") == Success(Reloaded(c).parameters)
    ensures DecodeAnyIfPresent(f, "result") == Reloaded(c).result
    ensures DecodeStringIfPresent(f, "error") == Success(c.error)
  {
    EncodeCallSucceedsIff(c);
    f := EncodeCall(c).value.fields;
    DecodeEncodedScalars(c, f);
    DecodeEncodedTimestamp(c, f);
    DecodeEncodedParameters(c, f);
    DecodeEncodedResult(c, f);
  }

  lemma DecodeEncodedScalars(c: FunctionCall, f: Fields)
    requires EncodeCall(c) == Success(JObject(f))
    ensures DecodeString(f, "id") == Success(c.id)
    ensures DecodeString(f, "name") == Success(c.name)
    ensures DecodeStatus(f, "status") == Success(c.status)
    ensures DecodeStringIfPresent(f, "error") == Success(c.error)
  {
    StatusRawValues(c.status, RawValue(c.status));
  }

  lemma DecodeEncodedTimestamp(c: FunctionCall, f: Fields)
    requires EncodeCall(c) == Success(JObject(f))
    ensures DecodeDouble(f, "timestamp") == Success(Reloaded(c).timestamp.sinceReferenceDate)
  {
    assert f["timestamp"] == NumberToken(c.timestamp.sinceReferenceDate);
    DoubleRoundTrip(c.timestamp.sinceReferenceDate, f, "timestamp");
  }

  lemma DecodeEncodedParameters(c: FunctionCall, f: Fields)
    requires EncodableCall(c) && EncodeCall(c) == Success(JObject(f))
    ensures DecodeDictionary(f, "parameters") == Success(Reloaded(c).parameters)
  {
    assert f["parameters"] == JObject(EncodeMap(c.parameters).value);
    EncodeMapRoundTrip(c.parameters);
  }

  lemma DecodeEncodedResult(c: FunctionCall, f: Fields)
    requires EncodableCall(c) && EncodeCall(c) == Success(JObject(f))
    ensures DecodeAnyIfPresent(f, "result") == Reloaded(c).result
  {
    if c.result.Some? {
      assert f["result"] == Encode(c.result.value).value;
      DecodeEncode(c.result.value);
    }
  }

  /** Decoding what was encoded gives back the call, as `Reloaded` describes. */
  lemma CallRoundTrip(c: FunctionCall)
    requires EncodableCall(c)
    ensures EncodeCall(c).Success?
    ensures DecodeCall(EncodeCall(c).value) == Success(Reloaded(c))
  {
    var f := DecodeEncodedFields(c);
  }

  /**
   * A call without parameters or result compares equal to itself after a
   * trip through JSON. Decoding builds a new parameters dictionary, so the
   * two do not share storage.
   */
  lemma ReloadedEquals(c: FunctionCall)
    requires c.parameters == map[] && c.result == None
    ensures FunctionCallEquals(Reloaded(c), c, false)
  {
    FunctionCallEqualsIff(Reloaded(c), c, false);
  }

  /** AnyCodable's `==`: false for every pair, equal values included. */
  function AnyCodableEquals(a: Any, b: Any): bool {
    false
  }

  /**
   * Dictionary `==`. `sameStorage` says whether both operands are copies of
   * one dictionary value and so share one buffer (as in `d == d`); then the
   * comparison answers true before looking at any value. Otherwise: equal
   * counts, and every key of the left found on the right with an `==` value.
   */
  function DictionaryEquals(a: map<string, Any>, b: map<string, Any>, sameStorage: bool): bool
    requires sameStorage ==> a == b
  {
    sameStorage || (|a| == |b| && forall k :: k in a ==> k in b && AnyCodableEquals(a[k], b[k]))
  }

  /** Optional `==`: nil equals nil; two values compare with the wrapped `==`. */
  function OptionalEquals(a: Option<Any>, b: Option<Any>): bool {
    match (a, b)
    case (None, None) => true
    case (Some(x), Some(y)) => AnyCodableEquals(x, y)
    case _ => false
  }

  /**
   * The `==` FunctionCall synthesises: every stored property compared with
   * its own `==`; `sameParameters` says whether the two parameters
   * dictionaries share storage.
   */
  function FunctionCallEquals(a: FunctionCall, b: FunctionCall, sameParameters: bool): bool
    requires sameParameters ==> a.parameters == b.parameters
  {
    && a.id == b.id
    && a.name == b.name
    && DictionaryEquals(a.parameters, b.parameters, sameParameters)
    && DateEquals(a.timestamp, b.timestamp)
    && a.status == b.status
    && OptionalEquals(a.result, b.result)
    && a.error == b.error
  }

  /**
   * Two calls compare equal exactly when neither has a result, their
   * parameters dictionaries share storage or are both empty, and the other
   * fields agree.
   */
  lemma FunctionCallEqualsIff(a: FunctionCall, b: FunctionCall, sameParameters: bool)
    requires sameParameters ==> a.parameters == b.parameters
    ensures FunctionCallEquals(a, b, sameParameters) <==>
      && (sameParameters || (a.parameters == map[] && b.parameters == map[]))
      && a.result == None && b.result == None
      && a.id == b.id && a.name == b.name && DateEquals(a.timestamp, b.timestamp)
      && a.status == b.status && a.error == b.error
  {
    if sameParameters {
    } else if a.parameters != map[] {
      var k :| k in a.parameters;
      assert !DictionaryEquals(a.parameters, b.parameters, false);
    } else if |b.parameters| == 0 {
      assert b.parameters.Keys == {};
    }
  }

  /**
   * So a call with a result is not equal even to itself, and neither is a
   * call with a parameter compared with a separately built copy.
   */
  lemma NotReflexive(c: FunctionCall, sameParameters: bool)
    requires c.result.Some? || (c.parameters != map[] && !sameParameters)
    ensures !FunctionCallEquals(c, c, sameParameters)
  {
    FunctionCallEqualsIff(c, c, sameParameters);
  }

  /** A call without a result is equal to itself when its parameters share storage, parameters or not. */
  lemma SharedParametersReflexive(c: FunctionCall)
    requires c.result == None
    ensures FunctionCallEquals(c, c, true)
  {
    FunctionCallEqualsIff(c, c, true);
  }
}
