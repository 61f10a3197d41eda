/**
 * The transport (Sources/Services/WebSocketService.swift): one WebSocket
 * link with reconnection and exponential backoff.
 *
 * The Starscream socket becomes a flag that says whether a socket object is
 * held, the frames written to it a log of JSON trees, the delegate a log of
 * the callbacks it receives, and `Timer` a pending-reconnect record holding
 * the delay and the URL the timer's block captured. Socket events are
 * method calls. Each method is specified by a step function over a
 * snapshot of the fields; the properties of the protocol are lemmas about
 * those functions.
 */
module Transport {
  import opened Wrappers
  import opened Binary64
  import opened DynamicValue
  import opened Messages
  import opened Connection
  import Utf8

  const MaxReconnectAttempts: nat := 5
  const MaxReconnectDelay: nat := 30
  const MaxAttemptsMessage: string := "Max reconnection attempts reached"
  const UnknownErrorMessage: string := "Unknown error"

  /** `min(pow(2, attempts), 30)` seconds. */
  function ReconnectDelay(attempt: nat): (d: nat)
    ensures 1 <= d <= MaxReconnectDelay && d <= Pow2(attempt)
    ensures d < MaxReconnectDelay ==> d == Pow2(attempt)
  {
    if Pow2(attempt) < MaxReconnectDelay then Pow2(attempt) else MaxReconnectDelay
  }

  /** The delays of attempts 1 to 5 are 2, 4, 8, 16 and 30 seconds, and no delay exceeds 30. */
  lemma {:induction false} ReconnectDelaySchedule(attempt: nat)
    ensures 1 <= ReconnectDelay(attempt) <= MaxReconnectDelay
    ensures attempt <= 4 ==> ReconnectDelay(attempt) == Pow2(attempt)
    ensures attempt >= 5 ==> ReconnectDelay(attempt) == MaxReconnectDelay
    ensures ReconnectDelay(1) == 2 && ReconnectDelay(2) == 4 && ReconnectDelay(3) == 8
    ensures ReconnectDelay(4) == 16 && ReconnectDelay(5) == 30
  {
    assert Pow2(1) == 2 && Pow2(2) == 4 && Pow2(3) == 8 && Pow2(4) == 16 && Pow2(5) == 32;
    if attempt >= 5 {
      Pow2Monotone(5, attempt);
    }
  }

  /** A scheduled `Timer`: its delay, and the URL its block will connect to. */
  datatype ReconnectTimer = ReconnectTimer(delay: nat, url: Url)

  /** Starscream's `WebSocketEvent`. */
  datatype SocketEvent =
    | SocketConnected
    | SocketDisconnected(reason: string, code: int)
    | TextFrame(text: string)
    | BinaryFrame(data: Utf8.Bytes)
    | SocketError(description: Option<string>)   // nil when Starscream gives no error
    | SocketCancelled
    | PingFrame
    | PongFrame
    | ViabilityChanged(viable: bool)
    | ReconnectSuggested(suggested: bool)
    | PeerClosed

  /** The calls `WebSocketServiceDelegate` receives. */
  datatype DelegateCall =
    | DidConnect
    | DidDisconnect(error: Option<string>)
    | DidReceiveMessage(message: OpenClawMessage)

  /** A snapshot of the service's fields. */
  datatype TransportState = TransportState(
    connectionState: ConnectionState,
    serverURL: Option<Url>,
    reconnectAttempts: nat,
    reconnectTimer: Option<ReconnectTimer>,
    orphanedTimers: seq<ReconnectTimer>,   // overwritten timers that were never invalidated
    socketOpen: bool,                      // `socket != nil`
    written: seq<Json>,                    // frames written to the socket
    delegateCalls: seq<DelegateCall>)

  /** A fresh service: disconnected, no URL, no socket, no timer. */
  function Initial(): TransportState {
    TransportState(Disconnected, None, 0, None, [], false, [], [])
  }

  /** `disconnect()`: invalidate the timer, drop the socket, state disconnected. */
  function DisconnectStep(s: TransportState): (t: TransportState)
    ensures t.connectionState == Disconnected && t.reconnectTimer == None && !t.socketOpen
    ensures t == s.(connectionState := t.connectionState, reconnectTimer := None, socketOpen := false)
  {
    s.(connectionState := Disconnected, reconnectTimer := None, socketOpen := false)
  }

  /** `connect(to:)`: disconnect first, then store the URL, reset the attempts and open a socket. */
  function ConnectStep(s: TransportState, url: Url): (t: TransportState)
    ensures t.connectionState == Connecting && t.serverURL == Some(url) && t.reconnectAttempts == 0
    ensures t.socketOpen && t.reconnectTimer == None
    ensures t.orphanedTimers == s.orphanedTimers && t.written == s.written && t.delegateCalls == s.delegateCalls
  {
    DisconnectStep(s).(serverURL := Some(url), reconnectAttempts := 0, socketOpen := true,
                       connectionState := Connecting)
  }

  /** The frames `send` writes for `m`: none unless connected with a socket and `m` encodes. */
  function Frames(s: TransportState, m: OpenClawMessage): seq<Json> {
    if s.connectionState.IsConnected() && s.socketOpen && EncodeMessage(m).Success?
    then [EncodeMessage(m).value] else []
  }

  /** `send(_:)`: at most one frame, the encoded message, and only when connected with a socket. */
  function SendStep(s: TransportState, m: OpenClawMessage): (t: TransportState)
    ensures t == s.(written := t.written)
    ensures |t.written| == |s.written| + 1 <==> s.connectionState.IsConnected() && s.socketOpen && EncodeMessage(m).Success?
    ensures |t.written| == |s.written| + 1 ==> t.written == s.written + [EncodeMessage(m).value]
    ensures |t.written| != |s.written| + 1 ==> t == s
  {
    s.(written := s.written + Frames(s, m))
  }

  /**
   * `scheduleReconnect()`: within the attempt budget and with a stored URL,
   * count the attempt and arm a timer for the backoff delay; otherwise
   * give up with an error state. Arming overwrites `reconnectTimer`
   * without invalidating the timer it held, which keeps running.
   */
  function ScheduleReconnectStep(s: TransportState): (t: TransportState)
    ensures t.written == s.written && t.delegateCalls == s.delegateCalls && t.socketOpen == s.socketOpen
    ensures t.serverURL == s.serverURL
    ensures s.reconnectAttempts < MaxReconnectAttempts && s.serverURL.Some? ==>
      && t.reconnectAttempts == s.reconnectAttempts + 1 && t.connectionState == s.connectionState
      && t.reconnectTimer == Some(ReconnectTimer(ReconnectDelay(t.reconnectAttempts), s.serverURL.value))
    ensures !(s.reconnectAttempts < MaxReconnectAttempts && s.serverURL.Some?) ==>
      t == s.(connectionState := Error(MaxAttemptsMessage))
  {
    if s.reconnectAttempts < MaxReconnectAttempts && s.serverURL.Some? then
      var attempts := s.reconnectAttempts + 1;
      s.(reconnectAttempts := attempts,
         reconnectTimer := Some(ReconnectTimer(ReconnectDelay(attempts), s.serverURL.value)),
         orphanedTimers := s.orphanedTimers + (if s.reconnectTimer.Some? then [s.reconnectTimer.value] else []))
    else
      s.(connectionState := Error(MaxAttemptsMessage))
  }

  /** `handleMessage(_:)` once the text has been read as JSON (`None` for malformed text). */
  function HandleMessageStep(s: TransportState, json: Option<Json>): (t: TransportState)
    ensures t == s.(written := t.written, delegateCalls := t.delegateCalls)
    ensures t.written == s.written || (json.Some? && DecodeMessage(json.value) == Success(Ping))
    ensures t.delegateCalls == s.delegateCalls ||
      (json.Some? && DecodeMessage(json.value).Success? &&
       t.delegateCalls == s.delegateCalls + [DidReceiveMessage(DecodeMessage(json.value).value)])
  {
    if json.None? then s
    else match DecodeMessage(json.value)
      case Failure(_) => s
      case Success(m) =>
        if m.Ping? then SendStep(s, Pong)
        else if m.Pong? then s
        else s.(delegateCalls := s.delegateCalls + [DidReceiveMessage(m)])
  }

  /** `didReceive(event:client:)`; `parseJson` reads a text frame as JSON. */
  function EventStep(s: TransportState, e: SocketEvent, parseJson: string -> Option<Json>): (t: TransportState)
    ensures e.SocketConnected? ==> t.connectionState == Connected && t.reconnectAttempts == 0
    ensures e.SocketConnected? ==> t.delegateCalls == s.delegateCalls + [DidConnect]
    ensures e.SocketDisconnected? || e.SocketCancelled? ==> t.delegateCalls == s.delegateCalls + [DidDisconnect(None)]
    ensures e.SocketError? ==> t.delegateCalls == s.delegateCalls + [DidDisconnect(e.description)]
    ensures e.SocketCancelled? ==> t == s.(connectionState := Disconnected, delegateCalls := t.delegateCalls)
    ensures e.PingFrame? || e.PongFrame? || e.ViabilityChanged? || e.ReconnectSuggested? || e.PeerClosed? ==> t == s
  {
    match e
    case SocketConnected =>
      s.(connectionState := Connected, reconnectAttempts := 0, delegateCalls := s.delegateCalls + [DidConnect])
    case SocketDisconnected(_, _) =>
      ScheduleReconnectStep(s.(connectionState := Disconnected, delegateCalls := s.delegateCalls + [DidDisconnect(None)]))
    case TextFrame(text) => HandleMessageStep(s, parseJson(text))
    case BinaryFrame(data) =>
      (match Utf8.Decode(data)
       case Some(text) => HandleMessageStep(s, parseJson(text))
       case None => s)
    case SocketError(description) =>
      ScheduleReconnectStep(s.(connectionState := Error(description.GetOr(UnknownErrorMessage)),
                               delegateCalls := s.delegateCalls + [DidDisconnect(description)]))
    case SocketCancelled =>
      s.(connectionState := Disconnected, delegateCalls := s.delegateCalls + [DidDisconnect(None)])
    case _ => s
  }

  /**
   * The reconnect timer's block AS WRITTEN: `connect(to: url)`, which resets
   * the attempt counter to 0.
   */
  function TimerFiredAsWritten(s: TransportState, timer: ReconnectTimer): (t: TransportState)
    ensures t.reconnectAttempts == 0 && t.connectionState == Connecting
    ensures t.serverURL == Some(timer.url) && t.socketOpen
  {
    ConnectStep(s, timer.url)
  }

  /**
   * The reconnect timer's block as evidently intended: open a new socket to
   * the captured URL as `connect(to:)` does, but keep the attempt count so
   * that the backoff grows and the attempt budget applies.
   */
  function TimerFired(s: TransportState, timer: ReconnectTimer): TransportState {
    ConnectStep(s, timer.url).(reconnectAttempts := s.reconnectAttempts)
  }

  /** The object invariant: the attempt count stays within the budget. */
  predicate Valid(s: TransportState) {
    s.reconnectAttempts <= MaxReconnectAttempts
  }

  class WebSocketService {
    var connectionState: ConnectionState
    var serverURL: Option<Url>
    var reconnectAttempts: nat
    var reconnectTimer: Option<ReconnectTimer>
    var orphanedTimers: seq<ReconnectTimer>
    var socketOpen: bool
    var written: seq<Json>
    var delegateCalls: seq<DelegateCall>
    /** JSONDecoder's reading of a text frame as a JSON tree; `None` for malformed text. */
    const parseJson: string -> Option<Json>

    function State(): TransportState
      reads this
    {
      TransportState(connectionState, serverURL, reconnectAttempts, reconnectTimer, orphanedTimers,
                     socketOpen, written, delegateCalls)
    }

    predicate ValidService()
      reads this
    {
      Valid(State())
    }

    constructor (parseJson: string -> Option<Json>)
      ensures State() == Initial() && this.parseJson == parseJson
    {
      connectionState := Disconnected;
      serverURL := None;
      reconnectAttempts := 0;
      reconnectTimer := None;
      orphanedTimers := [];
      socketOpen := false;
      written := [];
      delegateCalls := [];
      this.parseJson := parseJson;
    }

    method Connect(url: Url)
      modifies this
      ensures State() == ConnectStep(old(State()), url)
    {
      Disconnect();
      serverURL := Some(url);
      reconnectAttempts := 0;
      socketOpen := true;
      connectionState := Connecting;
    }

    method Disconnect()
      modifies this
      ensures State() == DisconnectStep(old(State()))
    {
      reconnectTimer := None;
      socketOpen := false;
      connectionState := Disconnected;
    }

    method Send(m: OpenClawMessage)
      modifies this`written
      ensures State() == SendStep(old(State()), m)
    {
      if !connectionState.IsConnected() {
        return;
      }
      var encoded := EncodeMessage(m);
      if encoded.Success? && socketOpen {
        written := written + [encoded.value];
      }
    }

    method SendFunctionCall(id: string, name: string, parameters: map<string, Any>)
      modifies this`written
      ensures State() == SendStep(old(State()), FunctionCall(FunctionCallMessage(id, name, parameters)))
    {
      Send(FunctionCall(FunctionCallMessage(id, name, parameters)));
    }

    method SendFunctionResult(id: string, status: string, result: Option<Any>, error: Option<string>)
      modifies this`written
      ensures State() == SendStep(old(State()), FunctionResult(FunctionResultMessage(id, status, result, error)))
    {
      Send(FunctionResult(FunctionResultMessage(id, status, result, error)));
    }

    method SendPing()
      modifies this`written
      ensures State() == SendStep(old(State()), Ping)
    {
      Send(Ping);
    }

    method ScheduleReconnect()
      modifies this
      ensures State() == ScheduleReconnectStep(old(State()))
    {
      if reconnectAttempts < MaxReconnectAttempts && serverURL.Some? {
        var url := serverURL.value;
        reconnectAttempts := reconnectAttempts + 1;
        if reconnectTimer.Some? {
          orphanedTimers := orphanedTimers + [reconnectTimer.value];
        }
        reconnectTimer := Some(ReconnectTimer(ReconnectDelay(reconnectAttempts), url));
      } else {
        connectionState := Error(MaxAttemptsMessage);
      }
    }

    method HandleMessage(text: string)
      modifies this`written, this`delegateCalls
      ensures State() == HandleMessageStep(old(State()), parseJson(text))
    {
      var json := parseJson(text);
      if json.None? {
        return;
      }
      var decoded := DecodeMessage(json.value);
      if decoded.Failure? {
        return;
      }
      match decoded.value
      case Ping => Send(Pong);
      case Pong =>
      case _ => delegateCalls := delegateCalls + [DidReceiveMessage(decoded.value)];
    }

    method DidReceive(e: SocketEvent)
      modifies this
      ensures State() == EventStep(old(State()), e, parseJson)
    {
      match e
      case SocketConnected =>
        connectionState := Connected;
        reconnectAttempts := 0;
        delegateCalls := delegateCalls + [DidConnect];
      case SocketDisconnected(_, _) =>
        connectionState := Disconnected;
        delegateCalls := delegateCalls + [DidDisconnect(None)];
        ScheduleReconnect();
      case TextFrame(text) =>
        HandleMessage(text);
      case BinaryFrame(data) =>
        var text := Utf8.Decode(data);
        if text.Some? {
          HandleMessage(text.value);
        }
      case SocketError(description) =>
        connectionState := Error(description.GetOr(UnknownErrorMessage));
        delegateCalls := delegateCalls + [DidDisconnect(description)];
        ScheduleReconnect();
      case SocketCancelled =>
        connectionState := Disconnected;
        delegateCalls := delegateCalls + [DidDisconnect(None)];
      case _ =>
    }

    /** The armed reconnect timer fires and its block runs `connect(to:)`. */
    method FireReconnectTimer()
      requires reconnectTimer.Some?
      modifies this
      ensures State() == TimerFiredAsWritten(old(State()), old(reconnectTimer.value))
    {
      Connect(reconnectTimer.value.url);
    }

    /** An overwritten timer, never invalidated, fires all the same. */
    method FireOrphanedTimer(i: nat)
      requires i < |orphanedTimers|
      modifies this
      ensures State() == TimerFiredAsWritten(
                old(State()).(orphanedTimers := old(orphanedTimers[..i] + orphanedTimers[i + 1..])),
                old(orphanedTimers[i]))
    {
      var timer := orphanedTimers[i];
      orphanedTimers := orphanedTimers[..i] + orphanedTimers[i + 1..];
      Connect(timer.url);
    }
  }
}
