/** Properties of the transport's step functions (Sources/Services/WebSocketService.swift). */
module TransportProperties {
  import opened Wrappers
  import opened DynamicValue
  import opened Messages
  import opened Connection
  import opened Transport

  /**
   * `send` writes nothing unless the state is connected and a socket is
   * held; when it writes, it writes one frame, and that frame reads back
   * as the message sent (an explicit null result as nil).
   */
  lemma SendWritesOneDecodableFrame(s: TransportState, m: OpenClawMessage)
    ensures !s.connectionState.IsConnected() || !s.socketOpen ==> SendStep(s, m) == s
    ensures s.connectionState.IsConnected() && s.socketOpen && EncodableMessage(m) ==>
      |SendStep(s, m).written| == |s.written| + 1 &&
      SendStep(s, m).written[..|s.written|] == s.written &&
      DecodeMessage(SendStep(s, m).written[|s.written|]) == Success(Normalize(m))
    ensures SendStep(s, m).(written := s.written) == s
  {
    EncodeSucceedsIffEncodable(m);
    if s.connectionState.IsConnected() && s.socketOpen && EncodableMessage(m) {
      RoundTrip(m);
      assert SendStep(s, m).written == s.written + [EncodeMessage(m).value];
    }
  }

  /**
   * An inbound ping is answered with a pong when connected and is not
   * passed to the delegate; an inbound pong is dropped; text that is not
   * JSON or not a message changes nothing.
   */
  lemma PingAnsweredWithPong(s: TransportState, j: Json)
    requires DecodeMessage(j) == Success(Ping)
    ensures var t := HandleMessageStep(s, Some(j));
      t.delegateCalls == s.delegateCalls &&
      t.connectionState == s.connectionState && t.reconnectAttempts == s.reconnectAttempts &&
      t.written == s.written + (if s.connectionState.IsConnected() && s.socketOpen
                                then [JObject(map["type" := JString("pong")])] else [])
  {
    EncodeKeys(Pong);
    var f := EncodeMessage(Pong).value.fields;
    assert f == map["type" := JString("pong")] by {
      assert f.Keys == {"type"};
    }
  }

  lemma PongAndGarbageIgnored(s: TransportState, json: Option<Json>)
    requires json.None? || DecodeMessage(json.value).Failure? || DecodeMessage(json.value) == Success(Pong)
    ensures HandleMessageStep(s, json) == s
  {
  }

  /** Function calls and results are passed to the delegate in arrival order, nothing written. */
  lemma CallsAndResultsDelegated(s: TransportState, j: Json)
    requires DecodeMessage(j).Success? && (DecodeMessage(j).value.FunctionCall? || DecodeMessage(j).value.FunctionResult?)
    ensures HandleMessageStep(s, Some(j)) == s.(delegateCalls := s.delegateCalls + [DidReceiveMessage(DecodeMessage(j).value)])
  {
  }

  /** A binary frame is handled as text exactly when it is well-formed UTF-8, and is dropped otherwise. */
  lemma BinaryFramesAsText(s: TransportState, text: string, p: string -> Option<Json>)
    ensures EventStep(s, BinaryFrame(Utf8.Encode(text)), p) == EventStep(s, TextFrame(text), p)
  {
    Utf8.DecodeEncode(text);
  }

  /** Connecting resets the attempt count and clears the timer; disconnecting drops the socket and the timer. */
  lemma ConnectAndDisconnect(s: TransportState, url: Url)
    ensures var t := ConnectStep(s, url);
      t.connectionState == Connecting && t.serverURL == Some(url) && t.reconnectAttempts == 0 &&
      t.reconnectTimer == None && t.socketOpen && t.written == s.written && t.delegateCalls == s.delegateCalls
    ensures var t := DisconnectStep(s);
      t.connectionState == Disconnected && t.reconnectTimer == None && !t.socketOpen &&
      t.serverURL == s.serverURL && t.reconnectAttempts == s.reconnectAttempts
  {
  }

  /**
   * An error event hands the delegate the event's own optional error, nil
   * included; only the state substitutes "Unknown error" for a missing one,
   * and the reconnect that follows may replace it with the give-up message.
   */
  lemma ErrorEventHandsOverError(s: TransportState, description: Option<string>, p: string -> Option<Json>)
    ensures var t := EventStep(s, SocketError(description), p);
      && t.delegateCalls == s.delegateCalls + [DidDisconnect(description)]
      && (s.reconnectAttempts < MaxReconnectAttempts && s.serverURL.Some? ==>
            t.connectionState == Error(description.GetOr(UnknownErrorMessage)))
      && (!(s.reconnectAttempts < MaxReconnectAttempts && s.serverURL.Some?) ==>
            t.connectionState == Error(MaxAttemptsMessage))
  {
  }

  /** Every step keeps the attempt count within the budget of five. */
  lemma StepsKeepValid(s: TransportState, e: SocketEvent, p: string -> Option<Json>, url: Url, m: OpenClawMessage)
    requires Valid(s)
    ensures Valid(EventStep(s, e, p)) && Valid(ConnectStep(s, url)) && Valid(DisconnectStep(s))
    ensures Valid(SendStep(s, m)) && Valid(ScheduleReconnectStep(s))
    ensures s.reconnectTimer.Some? ==> Valid(TimerFiredAsWritten(s, s.reconnectTimer.value))
    ensures s.reconnectTimer.Some? ==> Valid(TimerFired(s, s.reconnectTimer.value))
  {
  }

  /** As written, a timer-fired reconnect is `connect(to:)` and so resets the attempt count to 0. */
  lemma TimerFiredResetsAttempts(s: TransportState, timer: ReconnectTimer)
    ensures TimerFiredAsWritten(s, timer) == ConnectStep(s, timer.url)
    ensures TimerFiredAsWritten(s, timer).reconnectAttempts == 0
    ensures TimerFired(s, timer).reconnectAttempts == s.reconnectAttempts
  {
  }

  predicate IsFailureEvent(e: SocketEvent) {
    e.SocketDisconnected? || e.SocketError?
  }

  /** `n` rounds of a connection failure followed by the armed timer firing (the corrected timer block). */
  function FailedRounds(s: TransportState, n: nat, e: SocketEvent, p: string -> Option<Json>): TransportState {
    if n == 0 then s
    else
      var t := EventStep(FailedRounds(s, n - 1, e, p), e, p);
      if t.reconnectTimer.Some? then TimerFired(t, t.reconnectTimer.value) else t
  }

  /** The same rounds with the timer block as written (`connect(to:)`). */
  function FailedRoundsAsWritten(s: TransportState, n: nat, e: SocketEvent, p: string -> Option<Json>): TransportState {
    if n == 0 then s
    else
      var t := EventStep(FailedRoundsAsWritten(s, n - 1, e, p), e, p);
      if t.reconnectTimer.Some? then TimerFiredAsWritten(t, t.reconnectTimer.value) else t
  }

  lemma {:induction false} FailedRoundsState(s: TransportState, url: Url, n: nat, e: SocketEvent, p: string -> Option<Json>)
    requires s.serverURL == Some(url) && s.reconnectAttempts == 0 && s.reconnectTimer == None
    requires IsFailureEvent(e) && n <= MaxReconnectAttempts
    ensures var t := FailedRounds(s, n, e, p);
      t.serverURL == Some(url) && t.reconnectAttempts == n && t.reconnectTimer == None
  {
    if n > 0 {
      FailedRoundsState(s, url, n - 1, e, p);
    }
  }

  /**
   * With the corrected timer block, consecutive failures arm timers of 2,
   * 4, 8, 16 and 30 seconds, and the sixth failure gives up with the
   * "Max reconnection attempts reached" error.
   */
  lemma {:induction false} BackoffGrows(s: TransportState, url: Url, n: nat, e: SocketEvent, p: string -> Option<Json>)
    requires s.serverURL == Some(url) && s.reconnectAttempts == 0 && s.reconnectTimer == None
    requires IsFailureEvent(e)
    ensures n < MaxReconnectAttempts ==>
      var t := EventStep(FailedRounds(s, n, e, p), e, p);
      t.reconnectAttempts == n + 1 && t.reconnectTimer == Some(ReconnectTimer(ReconnectDelay(n + 1), url))
    ensures n == MaxReconnectAttempts ==>
      var t := EventStep(FailedRounds(s, n, e, p), e, p);
      t.connectionState == Error(MaxAttemptsMessage) && t.reconnectTimer == None
  {
    if n <= MaxReconnectAttempts {
      FailedRoundsState(s, url, n, e, p);
    }
  }

  lemma {:induction false} FailedRoundsAsWrittenState(s: TransportState, url: Url, n: nat, e: SocketEvent, p: string -> Option<Json>)
    requires s.serverURL == Some(url) && s.reconnectAttempts == 0 && s.reconnectTimer == None
    requires IsFailureEvent(e)
    ensures var t := FailedRoundsAsWritten(s, n, e, p);
      t.serverURL == Some(url) && t.reconnectAttempts == 0 && t.reconnectTimer == None
  {
    if n > 0 {
      FailedRoundsAsWrittenState(s, url, n - 1, e, p);
    }
  }

  /**
   * As written, the timer block resets the attempt count: every failure,
   * however many came before, arms a 2-second timer and the service never
   * gives up (a timer is armed after every failure).
   */
  lemma {:induction false} BackoffNeverGrowsAsWritten(s: TransportState, url: Url, n: nat, e: SocketEvent, p: string -> Option<Json>)
    requires s.serverURL == Some(url) && s.reconnectAttempts == 0 && s.reconnectTimer == None
    requires IsFailureEvent(e)
    ensures var t := EventStep(FailedRoundsAsWritten(s, n, e, p), e, p);
      t.reconnectAttempts == 1 && t.reconnectTimer == Some(ReconnectTimer(2, url))
  {
    FailedRoundsAsWrittenState(s, url, n, e, p);
    ReconnectDelaySchedule(1);
  }

  /** The discrepancy on the sixth consecutive failure after `connect(to:)`. */
  lemma SixthFailureAsWritten(url: Url, p: string -> Option<Json>)
    ensures var s := ConnectStep(Initial(), url);
      var e := SocketDisconnected("", 1006);
      EventStep(FailedRoundsAsWritten(s, 5, e, p), e, p).reconnectTimer == Some(ReconnectTimer(2, url)) &&
      EventStep(FailedRounds(s, 5, e, p), e, p).connectionState == Error(MaxAttemptsMessage)
  {
    var s := ConnectStep(Initial(), url);
    var e := SocketDisconnected("", 1006);
    BackoffNeverGrowsAsWritten(s, url, 5, e, p);
    BackoffGrows(s, url, 5, e, p);
  }
}
