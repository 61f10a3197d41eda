# MLX-Claw client session layer in Dafny

MLX-Claw is an iOS client that stays connected to an OpenClaw command server
over a WebSocket. The server sends remote function calls; the client runs
them against a registry of local handlers and answers with function results.
This project models the session layer and the small pure helpers around it:

- **Wire protocol**: the `OpenClawMessage` JSON envelope tagged by `"type"`
  (`function_call`, `function_result`, `ping`, `pong`), `FunctionCall` and its
  status, and `AnyCodable`, the recursive dynamic value carried in
  parameters and results, including its `==`.
- **Transport**: `WebSocketService`. It covers connect, disconnect, the
  send guard, reconnection with exponential backoff (2, 4, 8, 16, 30 s, at
  most 5 attempts) and the socket-event state machine. The class's state is
  a `TransportState` value, and every method is proved to move it by a step
  function.
- **Function registry**: `FunctionRegistry`, the five sample executors, and
  the JSON schema a `FunctionDefinition` publishes.
- **Offline queue**: `QueueService`. It covers a persisted FIFO of
  `QueuedFunctionCall`, its two-layer codec (parameters stored as an
  embedded, base64-encoded JSON blob), and the replay pass run on
  reconnection.
- **Orchestrator**: `OpenClawService`, which sends "executing" and then
  "success" or "error" for each call, and routes inbound messages.
- **View models**: `WebSocketViewModel` and `AppViewModel`.
- **Voxtral transcription**: speaker-labelled formatting, the
  multipart/form-data body (RFC 7578 section 4.2, delimiters as in RFC 2046
  section 5.1.1), the request and the error texts.
- **Small helpers**: `Color(hex:)` channel extraction, the device-token hex
  string and the `aps` guard of push notifications, and the onboarding step
  machine.

Files: `wrappers.dfy` (Option, Result), `utf8.dfy`, `dynamic_value.dfy`,
`binary64.dfy` (IEEE 754 doubles), `keyed_container.dfy` (Codable keyed containers), `function_call.dfy`,
`messages.dfy`, `connection.dfy`, `transport.dfy`,
`transport_properties.dfy`, `function_definition.dfy`, `registry.dfy`,
`queue.dfy`, `orchestrator.dfy`, `websocket_view_model.dfy`,
`app_view_model.dfy`, `text.dfy`, `voxtral.dfy`, `hex_color.dfy`,
`push_notifications.dfy`, `onboarding.dfy`.

The environment is passed in as parameters:

- JSON text parsing (`parseJson`), URL parsing (`parseUrl`) and the base64
  blob codec (`BlobCodec`).
- The HTTP exchange and the response decoder.
- UUIDs and the current date.
- The outcomes of permission requests and model loading.
- Which queued calls succeed on replay (`attempt`).
- Socket events. These are inputs to `DidReceive`, and an armed reconnect
  timer fires when `FireReconnectTimer` is called.

## Behaviour worth noting

- A `.cancelled` socket event sets the state to disconnected and tells the
  delegate, but schedules no reconnect (Sources/Services/WebSocketService.swift:144-146).
- The WebSocket request carries no `Authorization` header
  (Sources/Services/WebSocketService.swift:34-35).
- A function call that arrives while disconnected is not enqueued. The
  orchestrator always executes it and tries to send the result, and the
  transport drops those sends while not connected
  (Sources/Services/OpenClawService.swift:110-149).
- The replay pass collects failed calls and re-enqueues them after the
  drain, in their original order, not one by one during the drain. Nothing
  stops a second pass from starting while one runs
  (Sources/Services/QueueService.swift:85-108).
- Replay calls `OpenClawService.shared.executeQueuedCall`, which the source
  does not define. In the model, a call's success or failure on replay is a
  parameter.
- A reconnect timer calls `connect`, which resets the attempt counter, so the
  backoff never grows. See Findings.
- Function-call statuses may move between any two values, and `status` in a
  result message is a free string.

## Model

| member | source | states |
|---|---|---|
| Binary64.Pow2 | Sources/Services/WebSocketService.swift:90 | Powers of two are at least 1 |
| Binary64.Pow2Monotone | Sources/Services/WebSocketService.swift:90 | Powers of two never shrink as the exponent grows |
| Binary64.IntToDouble | Sources/Models/FunctionCall.swift:73 | `decode(Double.self)` of an integer token gives a finite double of the same sign, zero exactly for 0 (the rounding itself is pinned down by WholeDoubleReadsBack and SmallIntExact) |
| Binary64.IntegralValue | Sources/Models/FunctionCall.swift:71 | A double has an integral value exactly when it is finite and its significand and exponent give a whole number, with the same sign |
| Binary64.WholeDoubleReadsBack | Sources/Models/FunctionCall.swift:71-73 | A whole double within range converts back to itself as a double (a negative zero comes back as zero, which compares equal) |
| Binary64.SmallIntExact | Sources/Models/FunctionCall.swift:71-73 | Every integer below 2^53 in magnitude is held exactly by a double |
| DynamicValue.EncodeSucceedsIff | Sources/Models/FunctionCall.swift:86-107 | Encoding an AnyCodable succeeds exactly when every nested value is null, bool, Int, a finite Double, string, array or string-keyed dictionary; any other value, and NaN or ±Infinity, raises |
| DynamicValue.Encode | Sources/Models/FunctionCall.swift:86-107 | An encoded value mirrors the value case by case (null, bool, an Int as its integer, a finite Double as its number token, string, an array of the same length, an object with the same keys); an unsupported value or a non-finite Double fails |
| DynamicValue.Decode | Sources/Models/FunctionCall.swift:64-84 | The decoded value mirrors the JSON token case by case; a whole-valued number within Int64 decodes as an Int, because `decode(Int.self)` is tried before `decode(Double.self)` |
| DynamicValue.WholeInt | Sources/Models/FunctionCall.swift:71 | `decode(Int.self)` of a number token succeeds exactly when it is whole and within Int64, and gives that value |
| DynamicValue.NumberToken | Sources/Models/FunctionCall.swift:97 | A finite Double is written as an integer numeral exactly when it is whole and within Int64, and otherwise as itself |
| DynamicValue.Normal | Sources/Models/FunctionCall.swift:64-107 | Normalising keeps encodability and the outer shape, and a Double stays a Double only when it is not whole within Int64 |
| DynamicValue.Canonical | Sources/Models/FunctionCall.swift:64-107 | A canonical JSON tree is never a whole-valued double token within Int64 at the top, and keeps the outer shape |
| DynamicValue.NormalIdentity | Sources/Models/FunctionCall.swift:64-84 | A value without whole-valued Doubles is already normal |
| DynamicValue.DecodedHasNoWholeDoubles | Sources/Models/FunctionCall.swift:64-84 | A decoded value never holds a whole-valued Double in Int range |
| DynamicValue.NormalIdempotent | Sources/Models/FunctionCall.swift:64-107 | Normalising twice changes nothing more |
| DynamicValue.EncodeNormal | Sources/Models/FunctionCall.swift:86-107 | A value and its normal form encode to the same JSON |
| DynamicValue.EncodedIsCanonical | Sources/Models/FunctionCall.swift:86-107 | Every encoding succeeds for an encodable value and is canonical |
| DynamicValue.DecodeEncode | Sources/Models/FunctionCall.swift:64-107 | decode(encode(v)) is the normal form of v at any depth: a whole-valued Double within Int64 comes back as an Int, and everything else unchanged |
| DynamicValue.EncodeDecode | Sources/Models/FunctionCall.swift:64-107 | Every JSON tree decodes to an encodable value that encodes back to the tree's canonical form, in which whole-valued double tokens within Int64 are written as integers |
| DynamicValue.EncodeMapRoundTrip | Sources/Models/FunctionCall.swift:64-107 | A `[String: AnyCodable]` of encodable values round-trips through a JSON object to its normal form |
| DynamicValue.EncodeMapFailsIff | Sources/Models/FunctionCall.swift:100-103 | Encoding a dictionary fails exactly when one of its values is not encodable, a non-finite Double included |
| DynamicValue.DecodeMapEncodable | Sources/Models/FunctionCall.swift:64-84 | Every decoded dictionary is encodable and encodes back to the canonical form of the object it came from |
| KeyedContainer.Container | Sources/Models/OpenClawMessage.swift:27 | A keyed container exists exactly for a JSON object |
| KeyedContainer.DecodeString | Sources/Models/OpenClawMessage.swift:32-33 | `decode(String.self)` succeeds exactly when the key holds a string, and returns that string |
| KeyedContainer.DecodeStringIfPresent | Sources/Models/OpenClawMessage.swift:40 | `decodeIfPresent(String.self)` gives nil for a missing key or null, the string for a string, and fails for any other kind |
| KeyedContainer.DecodeInt | Sources/Services/QueueService.swift:154 | `decode(Int.self)` succeeds exactly for an integer token or a whole-valued number token within Int64, giving its value; any other number fails as data corrupted |
| KeyedContainer.DecodeDouble | Sources/Models/FunctionCall.swift:30 | `decode(Date.self)` under the default strategy succeeds exactly for a number token; a floating token gives its double and an integer token the nearest double |
| KeyedContainer.ReadBack | Sources/Models/FunctionCall.swift:30 | What a finite double reads back as compares equal to it, and is identical unless it is zero |
| KeyedContainer.DoubleRoundTrip | Sources/Models/FunctionCall.swift:30-42 | A double written as its number token decodes to its read-back value |
| KeyedContainer.DecodeDictionary | Sources/Models/OpenClawMessage.swift:34 | `decode([String: AnyCodable].self)` succeeds exactly for an object and decodes each value |
| KeyedContainer.DecodeAnyIfPresent | Sources/Models/OpenClawMessage.swift:39 | `decodeIfPresent(AnyCodable.self)` is nil exactly for a missing key or null, otherwise the decoded value |
| KeyedContainer.PutIfPresent | Sources/Models/OpenClawMessage.swift:62-63 | `encodeIfPresent` writes the key only for a non-nil value and leaves the other keys alone |
| FunctionCalls.StatusRawValues | Sources/Models/FunctionCall.swift:49-55 | The five status raw values each name exactly one status, and no other string names a status |
| FunctionCalls.NewFunctionCall | Sources/Models/FunctionCall.swift:12-20 | A new call keeps the given id, name, parameters, timestamp and status, with no result and no error |
| FunctionCalls.EncodeCallSucceedsIff | Sources/Models/FunctionCall.swift:37-46 | Encoding a call fails exactly when its parameters or its result hold an unencodable value |
| FunctionCalls.EncodeCall | Sources/Models/FunctionCall.swift:37-46 | An encoded call is an object that always has id, name, parameters, timestamp and status; id and name are the call's strings, the timestamp is its number token and the status its raw value; result and error are written exactly when non-nil |
| FunctionCalls.CallRoundTrip | Sources/Models/FunctionCall.swift:26-46 | Decoding an encoded call gives back its reloaded form: every field, a timestamp that compares equal, whole Doubles in parameters and result as Ints, and an explicit null result as nil |
| FunctionCalls.Reloaded | Sources/Models/FunctionCall.swift:26-46 | A reloaded call keeps id, name, status, error and parameter keys, its timestamp compares equal, and a result survives only if it was non-null |
| FunctionCalls.ReloadedEquals | Sources/Models/FunctionCall.swift:3-10 | A call with no parameters and no result is `==` to its reloaded copy, whose parameters are a separately built dictionary |
| FunctionCalls.DecodeCall | Sources/Models/FunctionCall.swift:26-35 | A decoded call comes from an object with id, name, timestamp, status and parameters; id and name are its strings, status names its status, and parameters is an object whose values decode to the call's parameters |
| FunctionCalls.FunctionCallEqualsIff | Sources/Models/FunctionCall.swift:3-10 | The synthesised `==` holds exactly when neither call has a result, the parameters dictionaries share storage or are both empty, and all other fields agree, timestamps compared as IEEE doubles, because AnyCodable's `==` is always false |
| FunctionCalls.NotReflexive | Sources/Models/FunctionCall.swift:109-111 | A call with a result is not equal to itself, and a call with a parameter is not equal to a copy whose parameters were built separately |
| FunctionCalls.SharedParametersReflexive | Sources/Models/FunctionCall.swift:3-10 | A call with no result is equal to itself when both sides share the parameters dictionary's storage, whatever its parameters |
| Messages.TagRawValues | Sources/Models/OpenClawMessage.swift:9-14 | The four type tags each name exactly one variant |
| Messages.EncodeSucceedsIffEncodable | Sources/Models/OpenClawMessage.swift:49-69 | Encoding a message fails exactly when its parameters or result hold an unencodable value |
| Messages.EncodeMessage | Sources/Models/OpenClawMessage.swift:49-69 | Every encoded message is an object whose "type" is its variant's known tag; ping and pong always encode |
| Messages.DecodeMessage | Sources/Models/OpenClawMessage.swift:26-47 | A message decodes only from an object whose "type" is a string naming the decoded variant |
| Messages.EncodeKeys | Sources/Models/OpenClawMessage.swift:52-68 | Ping and pong are written as the tag alone; a call writes exactly type, id, name and parameters; a result writes result and error exactly when non-nil |
| Messages.DecodeRejectsUnknownTag | Sources/Models/OpenClawMessage.swift:27-28 | A non-object, a missing or non-string "type" or an unknown tag fails to decode |
| Messages.DecodeFollowsTag | Sources/Models/OpenClawMessage.swift:28-46 | A decoded message's variant is the one its "type" names |
| Messages.DecodeFunctionCallIff | Sources/Models/OpenClawMessage.swift:31-35 | A function_call decodes exactly when id and name are strings and parameters is an object, and the message carries those values |
| Messages.DecodeFunctionResultIff | Sources/Models/OpenClawMessage.swift:36-41 | A function_result decodes exactly when id and status are strings and error is absent, null or a string; a missing or null result or error reads as nil |
| Messages.DecodePingPongIgnoresKeys | Sources/Models/OpenClawMessage.swift:42-45 | Decoding ping or pong ignores every key but "type" |
| Messages.RoundTrip | Sources/Models/OpenClawMessage.swift:26-69 | decode(encode(m)) gives the normal form of every encodable message: whole Doubles in parameters or result come back as Ints, and an explicit null result as nil |
| Messages.RoundTripExact | Sources/Models/OpenClawMessage.swift:26-69 | Without an explicit null result and without whole-valued Doubles the round trip is exact |
| Messages.DecodeThenEncode | Sources/Models/OpenClawMessage.swift:26-69 | A decoded message is encodable, and re-encoding it decodes to the same message |
| Messages.Normalize | Sources/Models/OpenClawMessage.swift:26-69 | The normal form of a message keeps its variant, ids, names, statuses, errors and parameter keys, and keeps a result only if it was non-null |
| Transport.ReconnectDelaySchedule | Sources/Services/WebSocketService.swift:89-90 | The delays for attempts 1 to 5 are 2, 4, 8, 16 and 30 s, and no delay exceeds 30 s |
| Transport.ReconnectDelay | Sources/Services/WebSocketService.swift:90 | The delay for an attempt is between 1 and 30 s and at most 2^attempt, and equal to 2^attempt below the cap |
| Transport.ConnectStep | Sources/Services/WebSocketService.swift:28-42 | After connect the state is connecting with the URL, zero attempts, an open socket and no timer; orphaned timers, written frames and delegate calls are kept |
| Transport.SendStep | Sources/Services/WebSocketService.swift:52-66 | A send only ever appends to the written frames: one frame, the encoded message, exactly when connected with a socket and the message encodes; otherwise nothing changes |
| Transport.ScheduleReconnectStep | Sources/Services/WebSocketService.swift:82-95 | Below 5 attempts with a URL the attempt is counted and a timer armed with its delay for that URL; otherwise only the state changes, to the max-attempts error |
| Transport.HandleMessageStep | Sources/Services/WebSocketService.swift:97-114 | Handling text changes only the written frames and the delegate calls: a frame is written only for a ping, and the delegate gets at most the decoded message |
| Transport.EventStep | Sources/Services/WebSocketService.swift:118-151 | connected sets connected with zero attempts and tells the delegate; disconnected and cancelled tell it with no error; an error event hands over its description; cancelled only sets disconnected; ping, pong, viability, reconnectSuggested and peerClosed change nothing |
| Transport.TimerFiredAsWritten | Sources/Services/WebSocketService.swift:92-94 | A fired timer leaves zero attempts, connecting, its URL and an open socket |
| Transport.DisconnectStep | Sources/Services/WebSocketService.swift:44-50 | disconnect invalidates the timer, drops the socket and sets disconnected, changing nothing else |
| Transport.WebSocketService.constructor | Sources/Services/WebSocketService.swift:11-26 | A new service is disconnected, with no URL, no socket, no timer and zero attempts |
| Transport.WebSocketService.Connect | Sources/Services/WebSocketService.swift:28-42 | connect runs disconnect, stores the URL, zeroes the attempts, opens a socket and sets connecting |
| Transport.WebSocketService.Disconnect | Sources/Services/WebSocketService.swift:44-50 | The state moves by the disconnect step |
| Transport.WebSocketService.Send | Sources/Services/WebSocketService.swift:52-66 | send writes one frame only when connected and a socket exists and the message encodes; otherwise nothing changes |
| Transport.WebSocketService.SendFunctionCall | Sources/Services/WebSocketService.swift:68-71 | Sends a function_call message built from its arguments |
| Transport.WebSocketService.SendFunctionResult | Sources/Services/WebSocketService.swift:73-76 | Sends a function_result message built from its arguments |
| Transport.WebSocketService.SendPing | Sources/Services/WebSocketService.swift:78-80 | Sends a ping |
| Transport.WebSocketService.ScheduleReconnect | Sources/Services/WebSocketService.swift:82-95 | Below 5 attempts and with a URL, counts an attempt and arms a timer with that attempt's delay, leaving any earlier timer armed; otherwise sets the max-attempts error |
| Transport.WebSocketService.HandleMessage | Sources/Services/WebSocketService.swift:97-114 | Ping is answered with pong, pong and undecodable text are dropped, calls and results go to the delegate |
| Transport.WebSocketService.DidReceive | Sources/Services/WebSocketService.swift:118-151 | One socket event moves the state by the event step: connected, disconnected, text, binary, error (its optional description handed to the delegate), cancelled, or nothing for the rest |
| Transport.WebSocketService.FireReconnectTimer | Sources/Services/WebSocketService.swift:92-94 | A fired timer reconnects to its URL exactly as connect does, resetting the attempts |
| Transport.WebSocketService.FireOrphanedTimer | Sources/Services/WebSocketService.swift:92-94 | A timer that was overwritten but never invalidated still fires and reconnects |
| TransportProperties.SendWritesOneDecodableFrame | Sources/Services/WebSocketService.swift:52-66 | When not connected a send changes nothing; when connected, an encodable message appends one frame that decodes back to it; only the written log ever changes |
| TransportProperties.PingAnsweredWithPong | Sources/Services/WebSocketService.swift:104-105 | A ping appends exactly the frame {"type":"pong"} when connected, and nothing else changes |
| TransportProperties.PongAndGarbageIgnored | Sources/Services/WebSocketService.swift:98-113 | Pong, unparsable text and undecodable messages leave the state unchanged |
| TransportProperties.CallsAndResultsDelegated | Sources/Services/WebSocketService.swift:108-109 | Function calls and results are handed to the delegate unchanged, and nothing else happens |
| TransportProperties.ErrorEventHandsOverError | Sources/Services/WebSocketService.swift:139-142 | An error event hands its description to the delegate, and the state ends as the error text ("Unknown error" without one) or as the max-attempts error when no reconnect is left |
| TransportProperties.BinaryFramesAsText | Sources/Services/WebSocketService.swift:134-137 | A binary frame holding UTF-8 text acts as the text frame |
| TransportProperties.ConnectAndDisconnect | Sources/Services/WebSocketService.swift:28-50 | Connect sets connecting, the URL, zero attempts, no timer and an open socket; disconnect clears the timer and socket and keeps URL and attempts |
| TransportProperties.StepsKeepValid | Sources/Services/WebSocketService.swift:82-95 | Every step keeps the attempt count within 0 to 5 |
| TransportProperties.TimerFiredResetsAttempts | Sources/Services/WebSocketService.swift:28-32 | A fired timer is exactly connect, so attempts return to 0; the corrected timer keeps them |
| TransportProperties.FailedRoundsState | Sources/Services/WebSocketService.swift:82-95 | With the corrected timer, n failed rounds (n ≤ 5) leave n attempts counted and no timer pending |
| TransportProperties.BackoffGrows | Sources/Services/WebSocketService.swift:82-95 | With the corrected timer, failure n+1 arms a timer of delay min(2^(n+1), 30), and the sixth failure sets the max-attempts error |
| TransportProperties.FailedRoundsAsWrittenState | Sources/Services/WebSocketService.swift:82-95 | As written, any number of failed rounds leaves the attempt count at 0 |
| TransportProperties.BackoffNeverGrowsAsWritten | Sources/Services/WebSocketService.swift:82-95 | As written, every failure arms a 2 s timer with attempt count 1 |
| TransportProperties.SixthFailureAsWritten | Sources/Services/WebSocketService.swift:82-95 | After five failed rounds the sixth failure arms another 2 s timer as written, but reaches the max-attempts error when corrected |
| FunctionDefinitions.NewParameterSchema | Sources/Models/FunctionDefinition.swift:9-14 | `required` defaults to true and `properties` to nil |
| FunctionDefinitions.SchemaShape | Sources/Models/FunctionDefinition.swift:32-54 | A schema has exactly id, name, description and parameters; parameters has type "object" and one properties entry per declared parameter |
| FunctionDefinitions.ParameterEntryShape | Sources/Models/FunctionDefinition.swift:32-54 | A parameter entry has type and description, plus nested properties exactly when declared; `required` is never written |
| FunctionDefinitions.SchemaEncodable | Sources/Models/FunctionDefinition.swift:32-54 | Every schema is encodable, and its id reads back as the definition's id |
| FunctionDefinitions.PropertiesEncodable | Sources/Models/FunctionDefinition.swift:32-54 | The properties object built from the declared parameters is encodable |
| FunctionDefinitions.ParameterEntryEncodable | Sources/Models/FunctionDefinition.swift:32-54 | Every parameter entry is encodable |
| Registry.ErrorDescription | Sources/Services/FunctionRegistry.swift:38-47 | functionNotFound describes itself as "Function with id '<id>' not found" |
| Registry.IdsAppend | Sources/Services/FunctionRegistry.swift:22-24 | Appending a definition adds exactly its id to the set of ids |
| Registry.FunctionRegistry.constructor | Sources/Services/FunctionRegistry.swift:6-8 | A new registry is empty |
| Registry.FunctionRegistry.Register | Sources/Services/FunctionRegistry.swift:10-12 | register stores the definition under its id, replacing any previous one |
| Registry.FunctionRegistry.Unregister | Sources/Services/FunctionRegistry.swift:14-16 | unregister removes exactly that id |
| Registry.FunctionRegistry.Get | Sources/Services/FunctionRegistry.swift:18-20 | get returns the definition exactly when the id is registered |
| Registry.FunctionRegistry.GetAll | Sources/Services/FunctionRegistry.swift:22-24 | getAll lists every registered definition once |
| Registry.FunctionRegistry.List | Sources/Services/FunctionRegistry.swift:26-28 | list gives one schema per registered definition, with distinct ids |
| Registry.FunctionRegistry.Execute | Sources/Services/FunctionRegistry.swift:30-35 | execute fails with functionNotFound for an unknown id, and otherwise returns or rethrows what the executor does |
| Registry.StringArgument | Sources/Services/FunctionRegistry.swift:58-60 | A string argument is read when present as a string, and the default is used otherwise |
| Registry.IntArgument | Sources/Services/FunctionRegistry.swift:60 | An integer argument is read when present as an Int, and the default is used otherwise |
| Registry.SampleIds | Sources/Services/FunctionRegistry.swift:50-120 | The five sample functions have distinct ids: create_calendar_event, get_calendar_events, create_task, list_tasks, complete_task |
| Registry.SampleIdList | Sources/Services/FunctionRegistry.swift:50-120 | Five definitions carrying the five sample ids in order have distinct ids, and exactly those ids |
| Registry.SampleExecutors | Sources/Services/FunctionRegistry.swift:50-120 | Every sample executor returns a dictionary and never throws |
| Registry.SampleFunctions | Sources/Services/FunctionRegistry.swift:50-120 | The sample list holds five definitions, in order create_calendar_event, get_calendar_events, create_task, list_tasks, complete_task, each with its own executor |
| Registry.CreateCalendarEvent | Sources/Services/FunctionRegistry.swift:61-66 | Returns exactly the keys success, eventId, title, date and duration: success is true, eventId is the fresh UUID, a string title or date and an Int duration are echoed, and otherwise title is "Untitled", date "" and duration 60 |
| Registry.GetCalendarEvents | Sources/Services/FunctionRegistry.swift:76-78 | Returns exactly events, an empty array, and count 0 |
| Registry.CreateTask | Sources/Services/FunctionRegistry.swift:89-93 | Returns exactly the keys success, taskId, title and priority: success is true, taskId is the fresh UUID, a string title or priority is echoed, and otherwise title is "Untitled" and priority "medium" |
| Registry.ListTasks | Sources/Services/FunctionRegistry.swift:103-105 | Returns exactly tasks, an empty array, and count 0 |
| Registry.CompleteTask | Sources/Services/FunctionRegistry.swift:114-117 | Returns exactly success and completed, both true, and taskId, echoed when it is a string and "" otherwise |
| Registry.CalendarEventDefinition | Sources/Services/FunctionRegistry.swift:52-67 | Id create_calendar_event with parameters title, date and duration |
| Registry.CalendarEventsDefinition | Sources/Services/FunctionRegistry.swift:68-79 | Id get_calendar_events with parameters startDate and endDate |
| Registry.CreateTaskDefinition | Sources/Services/FunctionRegistry.swift:80-94 | Id create_task with parameters title, dueDate and priority |
| Registry.ListTasksDefinition | Sources/Services/FunctionRegistry.swift:95-106 | Id list_tasks with parameters status and priority |
| Registry.CompleteTaskDefinition | Sources/Services/FunctionRegistry.swift:107-118 | Id complete_task with the parameter taskId |
| OfflineQueue.NewQueuedCall | Sources/Services/QueueService.swift:137-143 | retryCount defaults to 0, and the other fields are kept |
| OfflineQueue.EncodeQueued | Sources/Services/QueueService.swift:165-176 | An encoded queued call always has id, name, timestamp and retryCount; parameters is written, as the blob of their JSON, exactly when they encode |
| OfflineQueue.DecodeQueued | Sources/Services/QueueService.swift:149-163 | A decoded queued call comes from an object with id, name, timestamp and retryCount, and its parameters are what the blob decodes to, or empty |
| OfflineQueue.Persistable | Sources/Services/QueueService.swift:149-176 | What a saved call reloads as keeps id, name and retryCount, a timestamp that compares equal, its parameter keys when they encode, and empty parameters otherwise |
| OfflineQueue.BlobRoundTrip | Sources/Services/QueueService.swift:157-174 | With a faithful blob codec the parameters read back from the blob are the persistable parameters |
| OfflineQueue.Load | Sources/Services/QueueService.swift:118-124 | Nothing stored loads as empty; a non-empty load comes from a stored array of the same length whose every element decodes to the loaded call |
| OfflineQueue.QueuedRoundTrip | Sources/Services/QueueService.swift:149-176 | A queued call reads back as its persistable form: every field, a timestamp that compares equal, and parameters normalised or, if they cannot be encoded, empty |
| OfflineQueue.QueuedRequiredKeys | Sources/Services/QueueService.swift:149-163 | Decoding succeeds exactly when id and name are strings, timestamp is a date and retryCount an integer, whatever parameters holds; a missing or non-string parameters entry gives empty parameters |
| OfflineQueue.SaveThenLoad | Sources/Services/QueueService.swift:112-124 | Loading a saved queue gives back each call in its persistable form, in order; loading with nothing stored gives an empty queue |
| OfflineQueue.UndecodableLoadsEmpty | Sources/Services/QueueService.swift:118-124 | A stored value that is not an array, or that holds one undecodable call, loads as an empty queue |
| OfflineQueue.FailedPositions | Sources/Services/QueueService.swift:91-100 | The failed positions recorded in a drain are all below the drained count |
| OfflineQueue.FailedPositionsExact | Sources/Services/QueueService.swift:93-100 | The failed positions increase strictly, and a call's position is recorded exactly when its attempt failed |
| OfflineQueue.RequeuedStep | Sources/Services/QueueService.swift:93-100 | Each attempt adds its call to the failed list exactly when it fails |
| OfflineQueue.RequeuedExtremes | Sources/Services/QueueService.swift:93-105 | If every attempt succeeds nothing is requeued; if every attempt fails the queue comes back unchanged |
| OfflineQueue.NoFailedPositions | Sources/Services/QueueService.swift:93-100 | With no failures no position is recorded |
| OfflineQueue.AllFailedPositions | Sources/Services/QueueService.swift:93-100 | With only failures every position is recorded, in order |
| OfflineQueue.QueueService.constructor | Sources/Services/QueueService.swift:16-19 | The queue starts as whatever loads from storage, with both flags false |
| OfflineQueue.QueueService.SaveQueue | Sources/Services/QueueService.swift:112-116 | After saving, storage holds the encoded current queue |
| OfflineQueue.QueueService.Enqueue | Sources/Services/QueueService.swift:47-50 | enqueue appends at the tail, keeps earlier entries in order and persists |
| OfflineQueue.QueueService.Dequeue | Sources/Services/QueueService.swift:53-58 | On an empty queue dequeue returns nil and changes nothing; otherwise it returns the head, leaves the tail and persists |
| OfflineQueue.QueueService.Peek | Sources/Services/QueueService.swift:61-63 | peek returns the head exactly when the queue is non-empty |
| OfflineQueue.QueueService.GetAllPending | Sources/Services/QueueService.swift:66-68 | getAllPending returns the queue element for element |
| OfflineQueue.QueueService.Count | Sources/Services/QueueService.swift:77-79 | count is the number of pending calls, and zero exactly when peek gives nil |
| OfflineQueue.QueueService.ClearQueue | Sources/Services/QueueService.swift:71-74 | clearQueue empties the queue and persists |
| OfflineQueue.QueueService.HandleConnectionChange | Sources/Services/QueueService.swift:32-42 | isOffline becomes "not connected", and a sync starts exactly on an offline-to-connected edge |
| OfflineQueue.QueueService.SyncPendingCalls | Sources/Services/QueueService.swift:85-108 | With an empty queue or no service nothing changes; otherwise each call is attempted once in FIFO order, the queue becomes the failed calls in their original order, storage is up to date and isSyncing ends false |
| OfflineQueue.QueueService.Drain | Sources/Services/QueueService.swift:91-100 | The drain loop attempts every call and collects exactly the failed ones, in order, leaving the queue empty |
| Orchestrator.Boxed | Sources/Services/OpenClawService.swift:132 | `AnyCodable(result)` keeps a present value, and a nil boxed as `Any` is a value no encoder case accepts |
| Orchestrator.RouteOf | Sources/Services/OpenClawService.swift:203-225 | Calls are handled, pings answered with pong, and results and pongs ignored |
| Orchestrator.HandledCallMessages | Sources/Services/OpenClawService.swift:110-149 | Both messages carry the call id: "executing" first, then "success" with the value or "error" with the description; a nil success value cannot be encoded |
| Orchestrator.UnknownFunctionError | Sources/Services/OpenClawService.swift:137-147 | An unknown function name answers with "Function with id '<name>' not found" |
| Orchestrator.RegisterAllContents | Sources/Services/OpenClawService.swift:178-185 | Registering a list adds exactly its ids, and each id maps to its last definition |
| Orchestrator.RegisterSamples | Sources/Services/OpenClawService.swift:178-185 | Registering the defaults adds the five sample ids and keeps every other entry |
| Orchestrator.RegisterAllKeeps | Sources/Services/OpenClawService.swift:178-185 | Entries whose id is not re-registered are kept |
| Orchestrator.OpenClawService.constructor | Sources/Services/OpenClawService.swift:16-27 | A new service is disconnected, with no error, no URL and no model loaded |
| Orchestrator.OpenClawService.SyncConnectionState | Sources/Services/OpenClawService.swift:29-50 | The published connection state is copied from the transport |
| Orchestrator.OpenClawService.RegisterDefaultFunctions | Sources/Services/OpenClawService.swift:178-185 | The five sample functions are registered |
| Orchestrator.OpenClawService.Connect | Sources/Services/OpenClawService.swift:52-56 | connect stores the URL, registers the defaults and connects the transport |
| Orchestrator.OpenClawService.ConnectString | Sources/Services/OpenClawService.swift:58-64 | An unparsable URL sets "Invalid URL: <text>" and changes nothing else; otherwise it connects |
| Orchestrator.OpenClawService.Disconnect | Sources/Services/OpenClawService.swift:66-69 | disconnect closes the transport and marks the model unloaded |
| Orchestrator.OpenClawService.SendMessage | Sources/Services/OpenClawService.swift:71-108 | Not connected or no model gives the matching error and sends nothing; otherwise one success or error result with the generated reply is sent |
| Orchestrator.OpenClawService.HandleFunctionCall | Sources/Services/OpenClawService.swift:110-149 | Sends "executing", then the completion message for the executor's outcome or for functionNotFound |
| Orchestrator.OpenClawService.SendFunctionResult | Sources/Services/OpenClawService.swift:151-154 | Sends the given result message |
| Orchestrator.OpenClawService.SendFunctionResultFields | Sources/Services/OpenClawService.swift:156-164 | Sends a result message built from the fields |
| Orchestrator.OpenClawService.GetRegisteredFunctions | Sources/Services/OpenClawService.swift:174-176 | Returns one schema per registered function |
| Orchestrator.OpenClawService.WebSocketDidConnect | Sources/Services/OpenClawService.swift:189-195 | On connect the first available model is loaded if none is; modelLoaded becomes true exactly when a load succeeds |
| Orchestrator.OpenClawService.WebSocketDidDisconnect | Sources/Services/OpenClawService.swift:197-201 | A disconnect error is recorded as lastError; a clean disconnect keeps it |
| Orchestrator.OpenClawService.WebSocketDidReceiveMessage | Sources/Services/OpenClawService.swift:203-225 | A call is turned into a pending FunctionCall and handled; a ping sends pong; results and pongs do nothing |
| WebSocketViewModels.WebSocketViewModel.constructor | Sources/ViewModels/WebSocketViewModel.swift:13-16 | Starts with the service's state, no messages and no pending call |
| WebSocketViewModels.WebSocketViewModel.Connect | Sources/ViewModels/WebSocketViewModel.swift:18-21 | Connects only when the text parses as a URL |
| WebSocketViewModels.WebSocketViewModel.Disconnect | Sources/ViewModels/WebSocketViewModel.swift:23-25 | Disconnects the service |
| WebSocketViewModels.WebSocketViewModel.SendFunctionCall | Sources/ViewModels/WebSocketViewModel.swift:27-29 | Forwards to the service |
| WebSocketViewModels.WebSocketViewModel.SendFunctionResult | Sources/ViewModels/WebSocketViewModel.swift:31-33 | Forwards to the service |
| WebSocketViewModels.WebSocketViewModel.SendPing | Sources/ViewModels/WebSocketViewModel.swift:35-37 | Forwards to the service |
| WebSocketViewModels.WebSocketViewModel.WebSocketDidConnect | Sources/ViewModels/WebSocketViewModel.swift:39-41 | The state becomes connected |
| WebSocketViewModels.WebSocketViewModel.WebSocketDidDisconnect | Sources/ViewModels/WebSocketViewModel.swift:43-49 | An error gives the error state with its description; otherwise disconnected |
| WebSocketViewModels.WebSocketViewModel.WebSocketDidReceiveMessage | Sources/ViewModels/WebSocketViewModel.swift:51-58 | The message becomes the last message and is appended to the log; a function call becomes the pending call |
| WebSocketViewModels.WebSocketViewModel.ClearPendingCall | Sources/ViewModels/WebSocketViewModel.swift:60-62 | The pending call is cleared |
| WebSocketViewModels.WebSocketViewModel.ClearMessages | Sources/ViewModels/WebSocketViewModel.swift:64-67 | The log and the last message are cleared |
| AppViewModels.ToggleFor | Sources/ViewModels/AppViewModel.swift:40-49 | The toggle disconnects exactly when connected or connecting, and connects from disconnected or error |
| AppViewModels.AppViewModel.constructor | Sources/ViewModels/AppViewModel.swift:6-24 | Starts disconnected at "ws://localhost:8080/ws", with a fresh service and a view model bound to it |
| AppViewModels.AppViewModel.Connect | Sources/ViewModels/AppViewModel.swift:26-34 | An invalid URL sets the error and does not connect; a valid one clears the error and connects |
| AppViewModels.AppViewModel.Disconnect | Sources/ViewModels/AppViewModel.swift:36-38 | Disconnects the service |
| AppViewModels.AppViewModel.ToggleConnection | Sources/ViewModels/AppViewModel.swift:40-49 | Dispatches to disconnect or connect according to the current state |
| AppViewModels.AppViewModel.UpdateConnectionState | Sources/ViewModels/AppViewModel.swift:51-57 | Stores the state, and records an error state's message as lastError |
| Text.LeadingCount | VoxtralTranscriptionService.swift:33 | Counts exactly the leading characters of the class |
| Text.TrailingCount | VoxtralTranscriptionService.swift:33 | Counts exactly the trailing characters of the class |
| Text.TrimWhere | VoxtralTranscriptionService.swift:33 | The trimmed string is empty exactly when every character is in the class; otherwise it is the middle slice, starting and ending outside the class |
| Text.TrimIdempotent | VoxtralTranscriptionService.swift:33 | Trimming twice trims nothing more |
| Utf8.EncodeChar | VoxtralTranscriptionService.swift:218 | One scalar encodes to 1 to 4 bytes |
| Utf8.Encode | VoxtralTranscriptionService.swift:218 | The encoding has at least one byte per character |
| Utf8.SequenceLength | Sources/Services/WebSocketService.swift:135 | The leading UTF-8 sequence is at most 4 bytes and never runs past the input (0 marks malformed bytes) |
| Utf8.Decode | Sources/Services/WebSocketService.swift:135 | Empty bytes decode to the empty string, and a decoded string has no more characters than bytes |
| Utf8.ScalarOf | Sources/Services/WebSocketService.swift:135 | A decoded sequence is a Unicode scalar (no surrogate, at most U+10FFFF) |
| Utf8.EncodeCharIsWellFormed | VoxtralTranscriptionService.swift:218 | The bytes of a scalar form one well-formed sequence that decodes back to it |
| Utf8.WellFormedTwo | VoxtralTranscriptionService.swift:218 | A scalar from U+0080 to U+07FF encodes to a two-byte sequence that decodes back to it |
| Utf8.WellFormedThree | VoxtralTranscriptionService.swift:218 | A scalar from U+0800 to U+FFFF encodes to a three-byte sequence that decodes back to it |
| Utf8.WellFormedFour | VoxtralTranscriptionService.swift:218 | A scalar from U+10000 encodes to a four-byte sequence that decodes back to it |
| Utf8.DecodeEncode | Sources/Services/WebSocketService.swift:135 | Decoding the UTF-8 of a string gives the string back |
| Utf8.EncodeDecode | VoxtralTranscriptionService.swift:193 | Bytes that decode are exactly the encoding of what they decode to |
| Utf8.HeadRoundTrip | Sources/Services/WebSocketService.swift:135 | Re-encoding a decoded sequence gives its bytes |
| Utf8.HeadTwo | Sources/Services/WebSocketService.swift:135 | A two-byte sequence re-encodes to its own bytes |
| Utf8.HeadThree | Sources/Services/WebSocketService.swift:135 | A three-byte sequence re-encodes to its own bytes |
| Utf8.HeadFour | Sources/Services/WebSocketService.swift:135 | A four-byte sequence re-encodes to its own bytes |
| Utf8.EncodeAppend | VoxtralTranscriptionService.swift:207-211 | The UTF-8 of a concatenation is the concatenation of the UTF-8 |
| Utf8.EncodeAscii | VoxtralTranscriptionService.swift:207 | ASCII text encodes one byte per character, each its code |
| Voxtral.FormattedWithSpeakers | VoxtralTranscriptionService.swift:19-34 | The loop computes the formatted transcript; without segments the text is returned as is |
| Voxtral.UnlabelledIsPlainText | VoxtralTranscriptionService.swift:25-31 | Without speaker labels the output is the segment texts in order |
| Voxtral.UnlabelledKeepsSpeaker | VoxtralTranscriptionService.swift:26-30 | An unlabelled segment adds its text only, and keeps the current speaker |
| Voxtral.HeaderOnChange | VoxtralTranscriptionService.swift:26-30 | A repeated label adds no header; a changed one adds exactly "\n[label]\n" before the text |
| Voxtral.FormattedIsTrimmed | VoxtralTranscriptionService.swift:33 | With segments, the output starts and ends with neither whitespace nor a newline, and is empty exactly when the labelled text is all whitespace |
| Voxtral.TrimEnds | VoxtralTranscriptionService.swift:33 | `trimmingCharacters(in: .whitespacesAndNewlines)` leaves no whitespace or newline at either end, and gives "" exactly for all-whitespace input |
| Voxtral.FieldIsText | VoxtralTranscriptionService.swift:215-220 | A field part is the UTF-8 of "--B\r\n", the disposition with its name, a blank line, the value and "\r\n" |
| Voxtral.RequestPartsOrder | VoxtralTranscriptionService.swift:157-171 | The parts are file, model, language if given and diarization if enabled, in that order |
| Voxtral.BodyFraming | VoxtralTranscriptionService.swift:155-174 | Every body ends with "--B--\r\n", and a body with parts begins with "--B\r\n" |
| Voxtral.BodyEndsWithClose | VoxtralTranscriptionService.swift:173-174 | Every body ends with the close delimiter |
| Voxtral.PartOpens | VoxtralTranscriptionService.swift:207 | Every part starts with the delimiter line |
| Voxtral.AppendField | VoxtralTranscriptionService.swift:215-220 | appendField adds exactly the encoded field part |
| Voxtral.AppendPart | VoxtralTranscriptionService.swift:206-212 | appendPart adds the delimiter, the disposition with name and filename, the content type, a blank line, the data and "\r\n" |
| Voxtral.EncodeBodySplit | VoxtralTranscriptionService.swift:155-174 | A body is its parts followed by the close delimiter |
| Voxtral.PartsBytesConcat | VoxtralTranscriptionService.swift:158-171 | The bytes of two runs of parts placed one after the other are the two byte runs concatenated |
| Voxtral.PairBytes | VoxtralTranscriptionService.swift:158-161 | Two parts encode to their two encodings one after the other |
| Voxtral.OptionalPartBytes | VoxtralTranscriptionService.swift:163-171 | An optional part contributes its encoding when present and nothing otherwise |
| Voxtral.RequestBodyLayout | VoxtralTranscriptionService.swift:155-174 | The request body is the file part, the model field, the language field if given, the diarization field if enabled and the close delimiter |
| Voxtral.BuildBody | VoxtralTranscriptionService.swift:155-174 | The built body is the encoding of the request parts |
| Voxtral.RemoveDashes | VoxtralTranscriptionService.swift:154 | The result has no dash and is no longer than the input; a dash-free input is unchanged, a leading non-dash character is kept and a leading dash is dropped |
| Voxtral.RemoveDashesConcat | VoxtralTranscriptionService.swift:154 | Removing dashes distributes over concatenation |
| Voxtral.Boundary | VoxtralTranscriptionService.swift:154 | The boundary starts with "----VoxtralBoundary" and has no dash after it |
| Voxtral.NatToString | VoxtralTranscriptionService.swift:237 | A status code prints as decimal digits whose value is the code, with no leading zero |
| Voxtral.ApiErrorDescription | VoxtralTranscriptionService.swift:236-237 | An API error reads "Voxtral API-Fehler (<code>): <detail>" |
| Voxtral.CheckResponse | VoxtralTranscriptionService.swift:186-200 | A failed exchange is passed on; a status other than 200 is apiError with the body as UTF-8 or "Keine Details"; 200 succeeds exactly with a decodable body, giving the decoded response, and otherwise fails as not decodable |
| Voxtral.VoxtralTranscriptionService.constructor | VoxtralTranscriptionService.swift:50-69 | Not transcribing, with nothing recorded, and the model "voxtral-mini-latest" |
| Voxtral.VoxtralTranscriptionService.PerformRequest | VoxtralTranscriptionService.swift:136-201 | An unreadable file fails with fileReadFailed; otherwise one POST with the bearer key and the multipart body is sent and its response checked |
| Voxtral.VoxtralTranscriptionService.Transcribe | VoxtralTranscriptionService.swift:102-132 | A missing or empty key fails with apiKeyMissing before any flag changes; otherwise the outcome is recorded and isTranscribing ends false |
| HexColor.DigitValue | Sources/Utilities/Constants.swift:36 | A hex digit is worth less than 16 |
| HexColor.Pow16 | Sources/Utilities/Constants.swift:36 | Powers of 16 are positive |
| HexColor.HexValueBound | Sources/Utilities/Constants.swift:36 | n hex digits spell a number below 16^n |
| HexColor.HexRun | Sources/Utilities/Constants.swift:36 | The scanned run is all hex digits and stops at the first non-digit |
| HexColor.TrimHex | Sources/Utilities/Constants.swift:34 | Trimming never lengthens the string, gives "" exactly when no character is alphanumeric, and otherwise starts and ends on an alphanumeric character |
| HexColor.ScanHex | Sources/Utilities/Constants.swift:35-36 | The scanned value never exceeds UInt64's range |
| HexColor.ScanBound | Sources/Utilities/Constants.swift:34-36 | The value scanned from a string is below 16 to the power of its length |
| HexColor.Pow16Monotone | Sources/Utilities/Constants.swift:36 | Powers of 16 grow with the exponent |
| HexColor.ChannelsInRange | Sources/Utilities/Constants.swift:38-47 | Every channel lies in 0..255, for every input string |
| HexColor.ChannelsOf | Sources/Utilities/Constants.swift:38-47 | A value of the trimmed length keeps every channel within 0..255; lengths other than 3, 6 and 8 give (255, 0, 0, 0); 3 and 6 digits give alpha 255 |
| HexColor.OtherLengthsBlack | Sources/Utilities/Constants.swift:45-46 | A trimmed length other than 3, 6 or 8 gives (255, 0, 0, 0) |
| HexColor.HexValueAppend | Sources/Utilities/Constants.swift:36 | Appending digits shifts the value by one hex place per digit |
| HexColor.PairValue | Sources/Utilities/Constants.swift:41-44 | A digit pair is worth less than 256 |
| HexColor.Digit1 | Sources/Utilities/Constants.swift:36 | One digit is worth its own value |
| HexColor.Pair2 | Sources/Utilities/Constants.swift:36 | Two digits are worth their pair value |
| HexColor.Digits3 | Sources/Utilities/Constants.swift:39-40 | Three digits are worth 256·d0 + 16·d1 + d2 |
| HexColor.SplitNibbles | Sources/Utilities/Constants.swift:40 | Shifts by 8 and 4 and masks with 0xF recover three packed nibbles |
| HexColor.ThreeDigits | Sources/Utilities/Constants.swift:39-40 | With 3 digits each nibble is multiplied by 17 and alpha is 255 |
| HexColor.Digits6 | Sources/Utilities/Constants.swift:41-42 | Six digits are worth their three pairs packed high to low |
| HexColor.SplitBytes | Sources/Utilities/Constants.swift:41-42 | Shifts by 16 and 8 and masks with 0xFF recover three packed bytes |
| HexColor.SixDigits | Sources/Utilities/Constants.swift:41-42 | With 6 digits r, g and b are the digit pairs in order and alpha is 255 |
| HexColor.Digits8 | Sources/Utilities/Constants.swift:43-44 | Eight digits are the first pair shifted by 24 plus the other six |
| HexColor.SplitWord | Sources/Utilities/Constants.swift:43-44 | Shifts by 24, 16 and 8 and masks with 0xFF recover four packed bytes |
| HexColor.EightDigits | Sources/Utilities/Constants.swift:43-44 | With 8 digits the order is ARGB, alpha being the top byte |
| PushNotifications.ByteHex | Sources/Services/PushNotificationService.swift:34 | Each byte becomes two characters |
| PushNotifications.TokenString | Sources/Services/PushNotificationService.swift:34 | The token string has exactly twice as many characters as the token has bytes; an empty token gives "" |
| PushNotifications.TokenStringDigits | Sources/Services/PushNotificationService.swift:34 | Characters 2i and 2i+1 are byte i's high and low nibble as lowercase hex digits |
| PushNotifications.LowerHexValue | Sources/Services/PushNotificationService.swift:34 | A lowercase hex digit is the digit of its value |
| PushNotifications.HexDigitValue | Sources/Services/PushNotificationService.swift:34 | Every nibble's digit is a lowercase hex digit that reads back as the nibble |
| PushNotifications.ParseToken | Sources/Services/PushNotificationService.swift:34 | A parsed token has half as many bytes as the string has characters |
| PushNotifications.ParseTokenString | Sources/Services/PushNotificationService.swift:34 | Parsing the token string gives the token back |
| PushNotifications.TokenStringInjective | Sources/Services/PushNotificationService.swift:34 | Different tokens never give the same string |
| PushNotifications.HandleNotification | Sources/Services/PushNotificationService.swift:47-73 | Without an aps dictionary nothing happens; otherwise the payload is posted, and the badge is set exactly when aps["badge"] is an Int |
| Onboarding.RawValue | Sources/Views/OnboardingView.swift:16-21 | Raw values run from 0 to 4 |
| Onboarding.RawValues | Sources/Views/OnboardingView.swift:16-21 | `OnboardingStep(rawValue:)` succeeds exactly for 0 to 4, each naming one step |
| Onboarding.StepFromRaw | Sources/Views/OnboardingView.swift:16-21 | `OnboardingStep(rawValue:)` gives a step exactly for 0 to 4, whose raw value is the input |
| Onboarding.TitlesDistinct | Sources/Views/OnboardingView.swift:23-31 | Two steps have the same title exactly when they are the same step |
| Onboarding.ButtonTitle | Sources/Views/OnboardingView.swift:253-261 | "Get Started" exactly on welcome and complete, otherwise "Continue" |
| Onboarding.NextStep | Sources/Views/OnboardingView.swift:263-269 | proceed advances exactly one step, and stays on complete |
| Onboarding.AdvanceSteps | Sources/Views/OnboardingView.swift:263-269 | k proceeds advance k steps, stopping at complete |
| Onboarding.FourProceedsComplete | Sources/Views/OnboardingView.swift:263-269 | Four proceeds from welcome reach complete, and further proceeds stay there |
| Onboarding.ProgressFill | Sources/Views/OnboardingView.swift:51-62 | The progress bar has 4 segments, one per step but complete |
| Onboarding.ProgressFilledIff | Sources/Views/OnboardingView.swift:53-55 | A segment is filled exactly when the current step is at or past it |
| Onboarding.ProgressEnds | Sources/Views/OnboardingView.swift:53-55 | On complete all four segments are filled; on welcome only the first |
| Onboarding.BottomAction | Sources/Views/OnboardingView.swift:223-239 | On notifications or calendar without permission, the permission action is shown; on complete, finishing; otherwise proceed under buttonTitle |
| Onboarding.SkipShown | Sources/Views/OnboardingView.swift:241 | Skip shows exactly on the steps between welcome and complete |
| Onboarding.OnboardingFlow.constructor | Sources/Views/OnboardingView.swift:4-10 | Starts on welcome at "ws://localhost:8080/ws", with no permissions |
| Onboarding.OnboardingFlow.ProceedToNextStep | Sources/Views/OnboardingView.swift:263-269 | The current step moves to the next step |
| Onboarding.OnboardingFlow.SkipCurrentStep | Sources/Views/OnboardingView.swift:271-277 | Skip has exactly the effect of proceed |
| Onboarding.OnboardingFlow.RequestNotificationPermission | Sources/Views/OnboardingView.swift:279-288 | The grant is recorded, remote notifications are registered only when granted, and the requesting flag ends false |
| Onboarding.OnboardingFlow.RequestCalendarPermission | Sources/Views/OnboardingView.swift:290-300 | The grant is recorded, a thrown request counting as denied, and the requesting flag ends false |
| Onboarding.OnboardingFlow.CompleteOnboarding | Sources/Views/OnboardingView.swift:302-305 | The server URL is saved and hasCompletedOnboarding becomes true |
| Onboarding.OnboardingFlow.TapPrimary | Sources/Views/OnboardingView.swift:221-251 | A tap performs the shown action: proceed advances the step; enable notifications records the answer, registers when granted and clears the requesting flag; enable calendar records whether access was granted; on complete the URL is saved and onboarding marked done; nothing else changes |

## Left out

- Socket, timer and HTTP I/O. Starscream, `Timer`, `URLSession`, file reads, the keychain, `UserDefaults` and `NotificationCenter` are replaced by events, a pending-timer field, a written-frame log, a request log and parameters.
- Concurrency. `Task {}`, actors, Combine bindings and `@MainActor` are gone, and every operation runs as one sequential step. `SyncConnectionState` stands for the Combine binding from the transport's published state.
- The MLX inference service. Whether a model is loaded, the model list, load success and text generation are inputs. `loadModel` and `getAvailableModels` just forward, so they are not modelled.
- Floating point:
  - Doubles are modelled as IEEE 754 binary64 values (sign, significand, exponent, infinities and NaN); NaN payloads are not distinguished.
  - FunctionCalls.Date holds only finite doubles, because every Date comes from `Date()` or from decoding a JSON number.
  - The transcript segments' start and end times are not modelled.
  - Voxtral `progress` is not modelled.
  - The division by 255 in `Color(hex:)` is not modelled.
  - The backoff delay is an integer number of seconds.
- JSON text, number syntax and the JSON-level base64 of `Data` are not modelled. The model works on JSON trees, and the base64 blob codec is a parameter assumed faithful.
- Transport.WebSocketService.HandleMessage: `text.data(using: .utf8)` never fails for a Swift string, so only the parse can fail; the parser is a parameter.
- Transport.WebSocketService.DidReceive: an error event's description is taken as given (`localizedDescription`). A Starscream `disconnect()` that later delivers its own event is treated as just another input event.
- HexColor.IsAlphanumeric: only ASCII letters and digits count as alphanumeric, whereas Foundation's set covers all Unicode letters, marks and digits. `hex.count` counts characters, not grapheme clusters.
- FunctionCalls.FunctionCallEqualsIff / FunctionCalls.NotReflexive: whether two parameters dictionaries share storage, which decides Dictionary `==` through its identity shortcut before any value is compared, is a parameter of the equality (`sameParameters`). The model does not say which Swift copies share storage; it is true for `c == c` and false for a dictionary rebuilt by decoding.
- Strings are sequences of Unicode scalars compared exactly, not up to Swift's canonical equivalence. This affects Voxtral.HeaderOnChange / Voxtral.FormattedWithSpeakers (the speaker-change test), Registry.FunctionRegistry.Get / Register / Execute (lookup by id), Orchestrator.OpenClawService.HandleFunctionCall (lookup by the call's name) and FunctionCalls.FunctionCallEquals (id and name).
- PushNotifications.HandleNotification: payload keys are strings. `as? Int` accepts only integer values; NSNumber bridging of bools and doubles is not modelled. The alert and sound log lines and the token's UserDefaults write and notification post are not modelled.
- Push-notification authorization, remote-notification registration and `clearBadge` call platform APIs and are not modelled.
- Onboarding: the SwiftUI drawing and the per-step content views are not modelled. The permission requests are modelled run to their end, so `isRequestingPermissions` being true in between is not observable.
- Voxtral.VoxtralTranscriptionService.Transcribe: the API key is a parameter standing for the keychain read. `lastError` holds the model's error value, not a Swift `Error`.
- Keychain-backed API-key management (`saveAPIKey`, `loadAPIKey`, `hasAPIKey`, `deleteAPIKey`) wraps the keychain and is not modelled.
- Orchestrator.OpenClawService.HandleFunctionCall: an executor result that is a nil boxed as `Any` (Sources/Services/OpenClawService.swift:132) is taken to be a value the encoder rejects, so the success message is silently not sent. If the runtime instead bridged nil to `NSNull`, a null result would be sent.
- The JSON schema's `required` flag is never written (Sources/Models/FunctionDefinition.swift:32-54), so nothing about it is stated.
- UI views, widgets, the app entry point, ChatMessage, the storage, calendar and keychain services, and the app shortcuts are outside this model.

## Findings

| source | as written | input that shows it | evidently intended | confidence | as-written member | corrected member |
|---|---|---|---|---|---|---|
| Sources/Services/WebSocketService.swift:92-94 | The reconnect timer calls `connect(to:)`, which sets `reconnectAttempts` to 0 (line 32). Every failed reconnection therefore counts as attempt 1 again with a 2 s delay, and the 5-attempt limit is never reached. | Connect to a URL whose server refuses every connection, so each round ends in a disconnected or error event. The sixth failure arms another 2 s timer instead of setting "Max reconnection attempts reached". | The delays grow 2, 4, 8, 16, 30 s, and the sixth consecutive failure sets the max-attempts error; only a successful connection resets the count. | not executed | TransportProperties.BackoffNeverGrowsAsWritten | TransportProperties.BackoffGrows |
