/**
 * The app-level state holder (Sources/ViewModels/AppViewModel.swift): the
 * server URL typed by the user, the connection state shown, and the last
 * error. It owns its own transport, whose delegate is a `WebSocketViewModel`.
 */
module AppViewModels {
  import opened Wrappers
  import opened DynamicValue
  import opened Messages
  import opened Connection
  import opened Transport
  import opened WebSocketViewModels

  const DefaultServerURL: string := "ws://localhost:8080/ws"
  const InvalidServerURLMessage: string := "Invalid server URL"

  /** What `toggleConnection` does in a given state. */
  datatype Toggle = ToggleDisconnects | ToggleConnects

  function ToggleFor(state: ConnectionState): (t: Toggle)
    ensures t == ToggleDisconnects <==> state.Connected? || state.Connecting?
    ensures t == ToggleConnects <==> state.Disconnected? || state.Error?
  {
    match state
    case Connected => ToggleDisconnects
    case Disconnected => ToggleConnects
    case Error(_) => ToggleConnects
    case Connecting => ToggleDisconnects
  }

  class AppViewModel {
    var connectionState: ConnectionState
    var serverURL: string
    var isShowingSettings: bool
    var lastError: Option<string>
    var pendingFunctionCalls: seq<FunctionCallMessage>
    const webSocketService: WebSocketService
    const webSocketViewModel: WebSocketViewModel

    constructor (parseJson: string -> Option<Json>)
      ensures connectionState == Disconnected && serverURL == DefaultServerURL && !isShowingSettings
      ensures lastError == None && pendingFunctionCalls == []
      ensures fresh(webSocketService) && fresh(webSocketViewModel)
      ensures webSocketService.State() == Initial() && webSocketViewModel.service == webSocketService
    {
      connectionState := Disconnected;
      serverURL := DefaultServerURL;
      isShowingSettings := false;
      lastError := None;
      pendingFunctionCalls := [];
      var service := new WebSocketService(parseJson);
      webSocketService := service;
      webSocketViewModel := new WebSocketViewModel(service);
    }

    /** `connect()`: an unparseable URL only records the error; otherwise clear it and connect. */
    method Connect(parseUrl: string -> Option<Url>)
      modifies this`lastError, webSocketService
      ensures parseUrl(serverURL).None? ==>
        lastError == Some(InvalidServerURLMessage) && webSocketService.State() == old(webSocketService.State())
      ensures parseUrl(serverURL).Some? ==>
        lastError == None && webSocketService.State() == ConnectStep(old(webSocketService.State()), parseUrl(serverURL).value)
    {
      var url := parseUrl(serverURL);
      if url.None? {
        lastError := Some(InvalidServerURLMessage);
        return;
      }
      lastError := None;
      webSocketService.Connect(url.value);
    }

    method Disconnect()
      modifies webSocketService
      ensures webSocketService.State() == DisconnectStep(old(webSocketService.State()))
    {
      webSocketService.Disconnect();
    }

    method ToggleConnection(parseUrl: string -> Option<Url>)
      modifies this`lastError, webSocketService
      ensures ToggleFor(connectionState) == ToggleDisconnects ==>
        lastError == old(lastError) && webSocketService.State() == DisconnectStep(old(webSocketService.State()))
      ensures ToggleFor(connectionState) == ToggleConnects && parseUrl(serverURL).None? ==>
        lastError == Some(InvalidServerURLMessage) && webSocketService.State() == old(webSocketService.State())
      ensures ToggleFor(connectionState) == ToggleConnects && parseUrl(serverURL).Some? ==>
        lastError == None && webSocketService.State() == ConnectStep(old(webSocketService.State()), parseUrl(serverURL).value)
    {
      match connectionState
      case Connected => Disconnect();
      case Disconnected => Connect(parseUrl);
      case Error(_) => Connect(parseUrl);
      case Connecting => Disconnect();
    }

    /** The state is always stored; only an error state sets lastError, to its message. */
    method UpdateConnectionState(state: ConnectionState)
      modifies this`connectionState, this`lastError
      ensures connectionState == state
      ensures lastError == if state.Error? then Some(state.message) else old(lastError)
    {
      connectionState := state;
      if state.Error? {
        lastError := Some(state.message);
      }
    }
  }
}
