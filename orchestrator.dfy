/**
 * The orchestrator (Sources/Services/OpenClawService.swift): it owns the
 * transport and the registry, answers server-issued function calls with an
 * "executing" result and then a "success" or "error" result keyed by the
 * call id, and guards the outbound chat path.
 *
 * The language-model service is a collaborator: whether a model is loaded,
 * the list of models, and the outcome of a load or a generation are inputs.
 * Combine's binding of the transport's state becomes `SyncConnectionState`,
 * and each `Task {}` runs to completion where it is started.
 */
module Orchestrator {
  import opened Wrappers
  import opened DynamicValue
  import opened Messages
  import opened Connection
  import opened FunctionCalls
  import opened FunctionDefinitions
  import opened Registry
  import opened Transport

  const NotConnectedMessage: string := "Not connected to server"
  const ModelNotLoadedMessage: string := "MLX model not loaded"

  /**
   * `AnyCodable(result)` for the executor's `Any?`: a value is wrapped as
   * it is; nil is wrapped as a boxed empty optional, which matches none of
   * the cases `AnyCodable.encode` accepts.
   */
  function Boxed(v: Option<Any>): (a: Any)
    ensures v.Some? ==> a == v.value
    ensures v.None? ==> !Encodable(a)
  {
    match v
    case Some(x) => x
    case None => Unencodable("Optional<Any>")
  }

  function ExecutingMessage(call: FunctionCall): OpenClawMessage {
    FunctionResult(FunctionResultMessage(call.id, "executing", None, None))
  }

  /** The result message that follows the execution's outcome. */
  function CompletionMessage(call: FunctionCall, r: Result<Option<Any>, ExecuteError>): OpenClawMessage {
    match r
    case Success(v) => FunctionResult(FunctionResultMessage(call.id, "success", Some(Boxed(v)), None))
    case Failure(e) => FunctionResult(FunctionResultMessage(call.id, "error", None, Some(ExecuteErrorDescription(e))))
  }

  /** What `webSocketDidReceiveMessage` does with a message. */
  datatype Route = HandleCall(call: FunctionCallMessage) | AnswerPong | Ignore

  function RouteOf(m: OpenClawMessage): (r: Route)
    ensures r.HandleCall? <==> m.FunctionCall?
    ensures r.HandleCall? ==> r.call == m.call
    ensures r.AnswerPong? <==> m.Ping?
    ensures r.Ignore? <==> m.FunctionResult? || m.Pong?
  {
    match m
    case FunctionCall(c) => HandleCall(c)
    case FunctionResult(_) => Ignore
    case Ping => AnswerPong
    case Pong => Ignore
  }

  /** The definitions map after registering `fs` in order into `m`. */
  function RegisterAll(m: map<string, FunctionDefinition>, fs: seq<FunctionDefinition>): map<string, FunctionDefinition> {
    if |fs| == 0 then m else RegisterAll(m, fs[..|fs| - 1])[fs[|fs| - 1].id := fs[|fs| - 1]]
  }

  /**
   * Both messages of a handled call carry the call's id: first "executing",
   * then "success" with the executor's value, or "error" with the error's
   * description. A success whose value encodes reads back with that value;
   * one for a nil value cannot be encoded.
   */
  lemma HandledCallMessages(call: FunctionCall, r: Result<Option<Any>, ExecuteError>)
    ensures var first := ExecutingMessage(call);
      first.FunctionResult? && first.result.id == call.id && first.result.status == "executing" &&
      first.result.result.None? && first.result.error.None? && EncodableMessage(first)
    ensures var second := CompletionMessage(call, r);
      second.FunctionResult? && second.result.id == call.id &&
      (second.result.status == "success" <==> r.Success?) &&
      (second.result.status == "error" <==> r.Failure?) &&
      (r.Failure? ==> second.result.error == Some(ExecuteErrorDescription(r.error)) && EncodableMessage(second)) &&
      (r.Success? && r.value.None? ==> !EncodableMessage(second)) &&
      (r.Success? && r.value.Some? && Encodable(r.value.value) ==>
         EncodableMessage(second) && EncodeMessage(second).Success? &&
         DecodeMessage(EncodeMessage(second).value) == Success(Normalize(second)))
  {
    var second := CompletionMessage(call, r);
    if r.Success? && r.value.Some? && Encodable(r.value.value) {
      RoundTrip(second);
    }
  }

  /** An unknown function name produces the registry's not-found description in the error result. */
  lemma UnknownFunctionError(call: FunctionCall)
    ensures CompletionMessage(call, Failure(RegistryFailure(FunctionNotFound(call.name)))).result.error ==
      Some("Function with id '" + call.name + "' not found")
  {
  }

  lemma {:induction false} RegisterAllContents(m: map<string, FunctionDefinition>, fs: seq<FunctionDefinition>)
    ensures RegisterAll(m, fs).Keys == m.Keys + Ids(fs)
    ensures forall i :: 0 <= i < |fs| && (forall j :: i < j < |fs| ==> fs[j].id != fs[i].id) ==>
      RegisterAll(m, fs)[fs[i].id] == fs[i]
  {
    if |fs| > 0 {
      var init := fs[..|fs| - 1];
      RegisterAllContents(m, init);
      IdsAppend(init, fs[|fs| - 1]);
      assert init + [fs[|fs| - 1]] == fs;
      forall i | 0 <= i < |fs| - 1 && (forall j :: i < j < |fs| ==> fs[j].id != fs[i].id)
        ensures RegisterAll(m, fs)[fs[i].id] == fs[i]
      {
        assert init[i] == fs[i];
        assert fs[|fs| - 1].id != fs[i].id;
      }
    }
  }

  /** Registering the samples adds their five ids, each to its own sample, and keeps every other entry. */
  lemma RegisterSamples(m: map<string, FunctionDefinition>)
    ensures RegisterAll(m, SampleFunctions()).Keys ==
      m.Keys + {"create_calendar_event", "get_calendar_events", "create_task", "list_tasks", "complete_task"}
    ensures forall i :: 0 <= i < |SampleFunctions()| ==>
      RegisterAll(m, SampleFunctions())[SampleFunctions()[i].id] == SampleFunctions()[i]
    ensures forall id :: id in m && id !in Ids(SampleFunctions()) ==>
      id in RegisterAll(m, SampleFunctions()) && RegisterAll(m, SampleFunctions())[id] == m[id]
  {
    SampleIds();
    RegisterAllContents(m, SampleFunctions());
    RegisterAllKeeps(m, SampleFunctions());
  }

  lemma {:induction false} RegisterAllKeeps(m: map<string, FunctionDefinition>, fs: seq<FunctionDefinition>)
    ensures forall id :: id in m && id !in Ids(fs) ==> id in RegisterAll(m, fs) && RegisterAll(m, fs)[id] == m[id]
  {
    if |fs| > 0 {
      var init := fs[..|fs| - 1];
      RegisterAllKeeps(m, init);
      IdsAppend(init, fs[|fs| - 1]);
      assert init + [fs[|fs| - 1]] == fs;
      RegisterAllContents(m, init);
    }
  }

  class OpenClawService {
    var connectionState: ConnectionState
    var lastError: Option<string>
    var serverURL: Option<Url>
    /** `mlxService.isLoaded`. */
    var modelLoaded: bool
    /** `mlxService.availableModels`. */
    const availableModels: seq<string>
    const webSocketService: WebSocketService
    const functionRegistry: FunctionRegistry

    predicate Valid()
      reads this, functionRegistry
    {
      functionRegistry.Valid()
    }

    constructor (webSocketService: WebSocketService, functionRegistry: FunctionRegistry, availableModels: seq<string>)
      requires functionRegistry.Valid()
      ensures this.webSocketService == webSocketService && this.functionRegistry == functionRegistry
      ensures this.availableModels == availableModels && Valid()
      ensures connectionState == Disconnected && lastError == None && serverURL == None && !modelLoaded
    {
      this.webSocketService := webSocketService;
      this.functionRegistry := functionRegistry;
      this.availableModels := availableModels;
      connectionState := Disconnected;
      lastError := None;
      serverURL := None;
      modelLoaded := false;
    }

    /** The binding of `webSocketService.$connectionState` delivers the transport's state. */
    method SyncConnectionState()
      modifies this`connectionState
      ensures connectionState == webSocketService.connectionState
    {
      connectionState := webSocketService.connectionState;
    }

    /** `registerDefaultFunctions()`. */
    method RegisterDefaultFunctions()
      requires Valid()
      modifies functionRegistry
      ensures Valid() && functionRegistry.functions == RegisterAll(old(functionRegistry.functions), SampleFunctions())
    {
      var functions := SampleFunctions();
      for k := 0 to |functions|
        invariant functionRegistry.Valid()
        invariant functionRegistry.functions == RegisterAll(old(functionRegistry.functions), functions[..k])
      {
        assert functions[..k + 1][..k] == functions[..k];
        functionRegistry.Register(functions[k]);
      }
      assert functions[..|functions|] == functions;
    }

    /** `connect(to: URL)`: remember the URL, register the samples, connect the transport. */
    method Connect(url: Url)
      requires Valid()
      modifies this`serverURL, functionRegistry, webSocketService
      ensures Valid() && serverURL == Some(url)
      ensures functionRegistry.functions == RegisterAll(old(functionRegistry.functions), SampleFunctions())
      ensures webSocketService.State() == ConnectStep(old(webSocketService.State()), url)
    {
      serverURL := Some(url);
      RegisterDefaultFunctions();
      webSocketService.Connect(url);
    }

    /** `connect(to: String)`: an unparseable string only records "Invalid URL: <string>". */
    method ConnectString(urlString: string, parseUrl: string -> Option<Url>)
      requires Valid()
      modifies this`serverURL, this`lastError, functionRegistry, webSocketService
      ensures Valid()
      ensures parseUrl(urlString).None? ==>
        lastError == Some("Invalid URL: " + urlString) && serverURL == old(serverURL) &&
        functionRegistry.functions == old(functionRegistry.functions) &&
        webSocketService.State() == old(webSocketService.State())
      ensures parseUrl(urlString).Some? ==>
        lastError == old(lastError) && serverURL == parseUrl(urlString) &&
        functionRegistry.functions == RegisterAll(old(functionRegistry.functions), SampleFunctions()) &&
        webSocketService.State() == ConnectStep(old(webSocketService.State()), parseUrl(urlString).value)
    {
      var url := parseUrl(urlString);
      if url.None? {
        lastError := Some("Invalid URL: " + urlString);
        return;
      }
      Connect(url.value);
    }

    /** `disconnect()`: disconnect the transport and unload the model. */
    method Disconnect()
      modifies this`modelLoaded, webSocketService
      ensures !modelLoaded && webSocketService.State() == DisconnectStep(old(webSocketService.State()))
    {
      webSocketService.Disconnect();
      modelLoaded := false;
    }

    /**
     * `sendMessage(_:)`: refused with an error when not connected or when no
     * model is loaded; otherwise the generation's reply (or its error) is
     * sent as a function result under a fresh id.
     */
    method SendMessage(text: string, generate: string -> Result<string, string>, uuid: string)
      modifies this`lastError, webSocketService`written
      ensures !connectionState.IsConnected() ==>
        lastError == Some(NotConnectedMessage) && webSocketService.State() == old(webSocketService.State())
      ensures connectionState.IsConnected() && !modelLoaded ==>
        lastError == Some(ModelNotLoadedMessage) && webSocketService.State() == old(webSocketService.State())
      ensures connectionState.IsConnected() && modelLoaded ==>
        lastError == old(lastError) &&
        webSocketService.State() == SendStep(old(webSocketService.State()),
          match generate(text)
          case Success(reply) => FunctionResult(FunctionResultMessage(uuid, "success", Some(StringValue(reply)), None))
          case Failure(e) => FunctionResult(FunctionResultMessage(uuid, "error", None, Some(e))))
    {
      if !connectionState.IsConnected() {
        lastError := Some(NotConnectedMessage);
        return;
      }
      if !modelLoaded {
        lastError := Some(ModelNotLoadedMessage);
        return;
      }
      match generate(text)
      case Success(reply) =>
        webSocketService.Send(FunctionResult(FunctionResultMessage(uuid, "success", Some(StringValue(reply)), None)));
      case Failure(e) =>
        webSocketService.Send(FunctionResult(FunctionResultMessage(uuid, "error", None, Some(e))));
    }

    /**
     * `handleFunctionCall(_:)`: send "executing", run the function registered
     * under the call's NAME, then send the completion result.
     */
    method HandleFunctionCall(call: FunctionCall, uuid: string)
      modifies webSocketService`written
      ensures webSocketService.State() ==
        SendStep(SendStep(old(webSocketService.State()), ExecutingMessage(call)),
                 CompletionMessage(call, if call.name in functionRegistry.functions
                                         then OutcomeResult(functionRegistry.functions[call.name].executor(call.parameters, uuid))
                                         else Failure(RegistryFailure(FunctionNotFound(call.name)))))
    {
      webSocketService.Send(ExecutingMessage(call));
      var result := functionRegistry.Execute(call.name, call.parameters, uuid);
      webSocketService.Send(CompletionMessage(call, result));
    }

    method SendFunctionResult(result: FunctionResultMessage)
      modifies webSocketService`written
      ensures webSocketService.State() == SendStep(old(webSocketService.State()), FunctionResult(result))
    {
      webSocketService.Send(FunctionResult(result));
    }

    /** `sendFunctionResult(id:status:result:error:)`. */
    method SendFunctionResultFields(id: string, status: string, result: Option<Any>, error: Option<string>)
      modifies webSocketService`written
      ensures webSocketService.State() ==
        SendStep(old(webSocketService.State()), FunctionResult(FunctionResultMessage(id, status, result, error)))
    {
      SendFunctionResult(FunctionResultMessage(id, status, result, error));
    }

    method GetRegisteredFunctions() returns (schemas: seq<Any>)
      requires Valid()
      ensures (set i | 0 <= i < |schemas| :: SchemaId(schemas[i])) == functionRegistry.functions.Keys
      ensures forall i :: 0 <= i < |schemas| ==>
        SchemaId(schemas[i]) in functionRegistry.functions &&
        schemas[i] == Schema(functionRegistry.functions[SchemaId(schemas[i])])
    {
      schemas := functionRegistry.List();
    }

    /** `webSocketDidConnect()`: load the first available model when none is loaded; `loadSucceeds` is the load's outcome. */
    method WebSocketDidConnect(loadSucceeds: bool)
      modifies this`modelLoaded
      ensures modelLoaded == (old(modelLoaded) || (|availableModels| > 0 && loadSucceeds))
    {
      if !modelLoaded && |availableModels| > 0 {
        modelLoaded := loadSucceeds;
      }
    }

    /** `webSocketDidDisconnect(error:)`: only a supplied error changes lastError. */
    method WebSocketDidDisconnect(error: Option<string>)
      modifies this`lastError
      ensures lastError == if error.Some? then error else old(lastError)
    {
      if error.Some? {
        lastError := error;
      }
    }

    /**
     * `webSocketDidReceiveMessage(_:)`: a function call becomes a pending
     * `FunctionCall` (timestamped `now`) and is handled; a ping is answered
     * with a pong; results and pongs are ignored.
     */
    method WebSocketDidReceiveMessage(m: OpenClawMessage, now: Date, uuid: string)
      modifies webSocketService`written
      ensures RouteOf(m).Ignore? ==> webSocketService.State() == old(webSocketService.State())
      ensures RouteOf(m).AnswerPong? ==> webSocketService.State() == SendStep(old(webSocketService.State()), Pong)
      ensures RouteOf(m).HandleCall? ==>
        var call := NewFunctionCall(m.call.id, m.call.name, m.call.parameters, now, StatusPending);
        webSocketService.State() ==
          SendStep(SendStep(old(webSocketService.State()), ExecutingMessage(call)),
                   CompletionMessage(call, if call.name in functionRegistry.functions
                                           then OutcomeResult(functionRegistry.functions[call.name].executor(call.parameters, uuid))
                                           else Failure(RegistryFailure(FunctionNotFound(call.name)))))
    {
      match RouteOf(m)
      case HandleCall(c) =>
        var call := NewFunctionCall(c.id, c.name, c.parameters, now, StatusPending);
        HandleFunctionCall(call, uuid);
      case AnswerPong =>
        webSocketService.Send(Pong);
      case Ignore =>
    }
  }
}
