/**
 * The transport's view-side delegate (Sources/ViewModels/WebSocketViewModel.swift):
 * it mirrors the connection state, logs received messages and holds the
 * last function call awaiting the user.
 */
module WebSocketViewModels {
  import opened Wrappers
  import opened DynamicValue
  import opened Messages
  import opened Connection
  import opened Transport

  class WebSocketViewModel {
    var connectionState: ConnectionState
    var receivedMessages: seq<OpenClawMessage>
    var lastMessage: Option<OpenClawMessage>
    var pendingFunctionCall: Option<FunctionCallMessage>
    const service: WebSocketService

    /** `init(service:)`: the state starts as the service's current state. */
    constructor (service: WebSocketService)
      ensures this.service == service && connectionState == service.connectionState
      ensures receivedMessages == [] && lastMessage == None && pendingFunctionCall == None
    {
      this.service := service;
      connectionState := service.connectionState;
      receivedMessages := [];
      lastMessage := None;
      pendingFunctionCall := None;
    }

    /** `connect(to:)`: an unparseable string is ignored. */
    method Connect(urlString: string, parseUrl: string -> Option<Url>)
      modifies service
      ensures parseUrl(urlString).None? ==> service.State() == old(service.State())
      ensures parseUrl(urlString).Some? ==> service.State() == ConnectStep(old(service.State()), parseUrl(urlString).value)
    {
      var url := parseUrl(urlString);
      if url.Some? {
        service.Connect(url.value);
      }
    }

    method Disconnect()
      modifies service
      ensures service.State() == DisconnectStep(old(service.State()))
    {
      service.Disconnect();
    }

    method SendFunctionCall(id: string, name: string, parameters: map<string, Any>)
      modifies service`written
      ensures service.State() == SendStep(old(service.State()), FunctionCall(FunctionCallMessage(id, name, parameters)))
    {
      service.SendFunctionCall(id, name, parameters);
    }

    method SendFunctionResult(id: string, status: string, result: Option<Any>, error: Option<string>)
      modifies service`written
      ensures service.State() ==
        SendStep(old(service.State()), FunctionResult(FunctionResultMessage(id, status, result, error)))
    {
      service.SendFunctionResult(id, status, result, error);
    }

    method SendPing()
      modifies service`written
      ensures service.State() == SendStep(old(service.State()), Ping)
    {
      service.SendPing();
    }

    method WebSocketDidConnect()
      modifies this`connectionState
      ensures connectionState == Connected
    {
      connectionState := Connected;
    }

    /** An error's description becomes an error state; no error means disconnected. */
    method WebSocketDidDisconnect(error: Option<string>)
      modifies this`connectionState
      ensures error.Some? ==> connectionState == Error(error.value)
      ensures error.None? ==> connectionState == Disconnected
    {
      if error.Some? {
        connectionState := Error(error.value);
      } else {
        connectionState := Disconnected;
      }
    }

    /** The message is logged and becomes the last one; only a function call replaces the pending call. */
    method WebSocketDidReceiveMessage(m: OpenClawMessage)
      modifies this`lastMessage, this`receivedMessages, this`pendingFunctionCall
      ensures lastMessage == Some(m) && receivedMessages == old(receivedMessages) + [m]
      ensures pendingFunctionCall == if m.FunctionCall? then Some(m.call) else old(pendingFunctionCall)
    {
      lastMessage := Some(m);
      receivedMessages := receivedMessages + [m];
      if m.FunctionCall? {
        pendingFunctionCall := Some(m.call);
      }
    }

    method ClearPendingCall()
      modifies this`pendingFunctionCall
      ensures pendingFunctionCall == None
    {
      pendingFunctionCall := None;
    }

    /** Empties the log and the last message; the pending call stays. */
    method ClearMessages()
      modifies this`receivedMessages, this`lastMessage
      ensures receivedMessages == [] && lastMessage == None
    {
      receivedMessages := [];
      lastMessage := None;
    }
  }
}
