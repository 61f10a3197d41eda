/**
 * The wire protocol (Sources/Models/OpenClawMessage.swift): four message
 * variants, written as one JSON object whose "type" key carries the tag.
 */
module Messages {
  import opened Wrappers
  import opened DynamicValue
  import opened KeyedContainer

  datatype FunctionCallMessage = FunctionCallMessage(id: string, name: string, parameters: map<string, Any>)

  /** `status` is a free-form string: no set of values is checked on either side. */
  datatype FunctionResultMessage = FunctionResultMessage(id: string, status: string, result: Option<Any>, error: Option<string>)

  datatype OpenClawMessage =
    | FunctionCall(call: FunctionCallMessage)
    | FunctionResult(result: FunctionResultMessage)
    | Ping
    | Pong

  datatype MessageType = FunctionCallType | FunctionResultType | PingType | PongType

  function RawTag(t: MessageType): string {
    match t
    case FunctionCallType => "function_call"
    case FunctionResultType => "function_result"
    case PingType => "ping"
    case PongType => "pong"
  }

  function TagFromRaw(raw: string): Option<MessageType> {
    if raw == "function_call" then Some(FunctionCallType)
    else if raw == "function_result" then Some(FunctionResultType)
    else if raw == "ping" then Some(PingType)
    else if raw == "pong" then Some(PongType)
    else None
  }

  function TypeOf(m: OpenClawMessage): MessageType {
    match m
    case FunctionCall(_) => FunctionCallType
    case FunctionResult(_) => FunctionResultType
    case Ping => PingType
    case Pong => PongType
  }

  predicate IsKnownTag(raw: string) {
    raw in {"function_call", "function_result", "ping", "pong"}
  }

  /** The four tags, each naming one variant. */
  lemma TagRawValues(t: MessageType, raw: string)
    ensures TagFromRaw(raw) == Some(t) <==> raw == RawTag(t)
    ensures TagFromRaw(raw).Some? <==> IsKnownTag(raw)
  {
  }

  /** `OpenClawMessage.encode(to:)`: an object whose "type" is the tag of the variant. */
  function EncodeMessage(m: OpenClawMessage): (r: Result<Json, EncodingError>)
    ensures r.Success? ==> r.value.JObject? && "type" in r.value.fields
    ensures r.Success? ==> r.value.fields["type"] == JString(RawTag(TypeOf(m))) && IsKnownTag(RawTag(TypeOf(m)))
    ensures m.Ping? || m.Pong? ==> r.Success?
  {
    var tag := map["type" := JString(RawTag(TypeOf(m)))];
    match m
    case FunctionCall(call) =>
      var params :- EncodeMap(call.parameters);
      Success(JObject(tag["id" := JString(call.id)]["name" := JString(call.name)]["parameters" := JObject(params)]))
    case FunctionResult(r) =>
      var result :- EncodeOptionalAny(r.result);
      var fields := tag["id" := JString(r.id)]["status" := JString(r.status)];
      Success(JObject(PutIfPresent(PutIfPresent(fields, "result", result), "error",
                                   if r.error.Some? then Some(JString(r.error.value)) else None)))
    case Ping => Success(JObject(tag))
    case Pong => Success(JObject(tag))
  }

  function EncodeOptionalAny(v: Option<Any>): Result<Option<Json>, EncodingError> {
    match v
    case None => Success(None)
    case Some(x) =>
      match Encode(x)
      case Success(j) => Success(Some(j))
      case Failure(e) => Failure(e)
  }

  /** `decode(MessageType.self, forKey: .type)`. */
  function DecodeType(c: Fields): Result<MessageType, DecodingError> {
    var raw :- DecodeString(c, "type");
    match TagFromRaw(raw)
    case Some(t) => Success(t)
    case None => Failure(DataCorrupted("type"))
  }

  /** `OpenClawMessage.init(from:)`: the variant is chosen by the string under "type". */
  function DecodeMessage(j: Json): (r: Result<OpenClawMessage, DecodingError>)
    ensures r.Success? ==> j.JObject? && "type" in j.fields && j.fields["type"].JString?
    ensures r.Success? ==> TagFromRaw(j.fields["type"].s) == Some(TypeOf(r.value))
  {
    var c :- Container(j);
    var t :- DecodeType(c);
    match t
    case FunctionCallType =>
      var id :- DecodeString(c, "id");
      var name :- DecodeString(c, "name");
      var parameters :- DecodeDictionary(c, "parameters");
      Success(FunctionCall(FunctionCallMessage(id, name, parameters)))
    case FunctionResultType =>
      var id :- DecodeString(c, "id");
      var status :- DecodeString(c, "status");
      var result := DecodeAnyIfPresent(c, "result");
      var error :- DecodeStringIfPresent(c, "error");
      Success(FunctionResult(FunctionResultMessage(id, status, result, error)))
    case PingType => Success(Ping)
    case PongType => Success(Pong)
  }

  predicate EncodableMessage(m: OpenClawMessage) {
    match m
    case FunctionCall(call) => EncodableMap(call.parameters)
    case FunctionResult(r) => r.result.Some? ==> Encodable(r.result.value)
    case _ => true
  }

  /**
   * What decoding gives back for an encoded message: whole doubles in the
   * parameters or the result read as integers, and an explicit null result
   * reads as nil.
   */
  function Normalize(m: OpenClawMessage): (r: OpenClawMessage)
    ensures TypeOf(r) == TypeOf(m)
    ensures m.FunctionCall? ==> r.call.id == m.call.id && r.call.name == m.call.name
    ensures m.FunctionCall? ==> r.call.parameters.Keys == m.call.parameters.Keys
    ensures m.FunctionResult? ==> r.result.id == m.result.id && r.result.status == m.result.status && r.result.error == m.result.error
    ensures m.FunctionResult? && r.result.result.Some? ==> m.result.result.Some? && m.result.result.value != NullValue
  {
    match m
    case FunctionCall(call) => FunctionCall(call.(parameters := NormalMap(call.parameters)))
    case FunctionResult(r) =>
      FunctionResult(r.(result := if r.result.None? || r.result == Some(NullValue) then None else Some(Normal(r.result.value))))
    case _ => m
  }

  /** Encoding fails exactly when parameters or result hold a value of no encodable kind. */
  lemma EncodeSucceedsIffEncodable(m: OpenClawMessage)
    ensures EncodeMessage(m).Success? <==> EncodableMessage(m)
  {
    match m
    case FunctionCall(call) => EncodeMapFailsIff(call.parameters);
    case FunctionResult(r) =>
      if r.result.Some? {
        EncodeSucceedsIff(r.result.value);
      }
    case _ =>
  }

  /** Ping and pong are written as the tag alone; a function result omits a nil result or error. */
  lemma EncodeKeys(m: OpenClawMessage)
    requires EncodeMessage(m).Success?
    ensures m.Ping? || m.Pong? ==> EncodeMessage(m).value.fields.Keys == {"type"}
    ensures m.FunctionCall? ==> EncodeMessage(m).value.fields.Keys == {"type", "id", "name", "parameters"}
    ensures m.FunctionResult? ==>
      && EncodeMessage(m).value.fields.Keys >= {"type", "id", "status"}
      && ("result" in EncodeMessage(m).value.fields <==> m.result.result.Some?)
      && ("error" in EncodeMessage(m).value.fields <==> m.result.error.Some?)
  {
  }

  /** Decoding fails when the input is no object, or "type" is missing or none of the four tags. */
  lemma DecodeRejectsUnknownTag(j: Json)
    requires !j.JObject? || "type" !in j.fields || !j.fields["type"].JString? || !IsKnownTag(j.fields["type"].s)
    ensures DecodeMessage(j).Failure?
  {
  }

  /** A decoded message's variant is the one its "type" names. */
  lemma DecodeFollowsTag(j: Json)
    requires DecodeMessage(j).Success?
    ensures j.JObject? && "type" in j.fields && j.fields["type"] == JString(RawTag(TypeOf(DecodeMessage(j).value)))
  {
    var c := j.fields;
    var t := DecodeType(c).value;
    TagRawValues(t, c["type"].s);
  }

  /** function_call decodes exactly when id and name are strings and parameters an object. */
  lemma DecodeFunctionCallIff(j: Json)
    requires j.JObject? && "type" in j.fields && j.fields["type"] == JString("function_call")
    ensures DecodeMessage(j).Success? <==>
      && "id" in j.fields && j.fields["id"].JString?
      && "name" in j.fields && j.fields["name"].JString?
      && "parameters" in j.fields && j.fields["parameters"].JObject?
    ensures DecodeMessage(j).Success? ==> DecodeMessage(j).value == FunctionCall(FunctionCallMessage(
      j.fields["id"].s, j.fields["name"].s, DecodeMap(j.fields["parameters"].fields)))
  {
  }

  /**
   * function_result needs id and status strings; a missing or null result or
   * error reads as nil, and an error of any other kind than string fails.
   */
  lemma DecodeFunctionResultIff(j: Json)
    requires j.JObject? && "type" in j.fields && j.fields["type"] == JString("function_result")
    ensures var f := j.fields;
      DecodeMessage(j).Success? <==>
        && "id" in f && f["id"].JString?
        && "status" in f && f["status"].JString?
        && ("error" !in f || f["error"].JNull? || f["error"].JString?)
    ensures var f := j.fields;
      DecodeMessage(j).Success? ==>
        && DecodeMessage(j).value.FunctionResult?
        && (DecodeMessage(j).value.result.result.None? <==> "result" !in f || f["result"].JNull?)
        && (DecodeMessage(j).value.result.error.None? <==> "error" !in f || f["error"].JNull?)
  {
  }

  /** Decoding ping or pong ignores every key but "type". */
  lemma DecodePingPongIgnoresKeys(j: Json, extra: map<string, Json>)
    requires j.JObject? && "type" in j.fields && j.fields["type"] in {JString("ping"), JString("pong")}
    ensures DecodeMessage(j) == DecodeMessage(JObject(extra + j.fields))
    ensures DecodeMessage(j) == if j.fields["type"] == JString("ping") then Success(Ping) else Success(Pong)
  {
    assert (extra + j.fields)["type"] == j.fields["type"];
  }

  /**
   * decode(encode(m)) gives back the same variant with the same fields,
   * and the parameters and result in the form `Normalize` describes.
   */
  lemma RoundTrip(m: OpenClawMessage)
    requires EncodableMessage(m)
    ensures EncodeMessage(m).Success?
    ensures DecodeMessage(EncodeMessage(m).value) == Success(Normalize(m))
  {
    EncodeSucceedsIffEncodable(m);
    var j := EncodeMessage(m).value;
    TagRawValues(TypeOf(m), RawTag(TypeOf(m)));
    match m
    case FunctionCall(call) =>
      EncodeMapRoundTrip(call.parameters);
    case FunctionResult(r) =>
      if r.result.Some? {
        DecodeEncode(r.result.value);
        assert j.fields["result"] == Encode(r.result.value).value;
      }
    case _ =>
  }

  /** Messages without an explicit null result and without whole doubles round-trip exactly. */
  lemma RoundTripExact(m: OpenClawMessage)
    requires EncodableMessage(m)
    requires m.FunctionCall? ==> NoWholeDoubles(DictValue(m.call.parameters))
    requires m.FunctionResult? ==> m.result.result != Some(NullValue)
    requires m.FunctionResult? && m.result.result.Some? ==> NoWholeDoubles(m.result.result.value)
    ensures EncodeMessage(m).Success?
    ensures DecodeMessage(EncodeMessage(m).value) == Success(m)
  {
    RoundTrip(m);
    match m
    case FunctionCall(call) =>
      NormalIdentity(DictValue(call.parameters));
    case FunctionResult(r) =>
      if r.result.Some? {
        NormalIdentity(r.result.value);
      }
    case _ =>
  }

  /** And a decoded message encodes back to a tree that decodes to it again. */
  lemma DecodeThenEncode(j: Json)
    requires DecodeMessage(j).Success?
    ensures EncodableMessage(DecodeMessage(j).value)
    ensures EncodeMessage(DecodeMessage(j).value).Success?
    ensures DecodeMessage(EncodeMessage(DecodeMessage(j).value).value) == DecodeMessage(j)
  {
    var m := DecodeMessage(j).value;
    if m.FunctionCall? {
      DecodeMapEncodable(j.fields["parameters"].fields);
      DecodedHasNoWholeDoubles(JObject(j.fields["parameters"].fields));
    } else if m.FunctionResult? && m.result.result.Some? {
      EncodeDecode(j.fields["result"]);
      DecodedHasNoWholeDoubles(j.fields["result"]);
    }
    RoundTripExact(m);
  }
}
