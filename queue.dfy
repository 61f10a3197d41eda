/**
 * The offline queue (Sources/Services/QueueService.swift): a FIFO of
 * deferred function calls, written to a persisted snapshot on every
 * mutation, with a replay pass run when the connection comes back.
 */
module OfflineQueue {
  import opened Wrappers
  import opened Binary64
  import opened DynamicValue
  import opened KeyedContainer
  import opened Connection
  import opened FunctionCalls

  /**
   * The text form of the nested parameters blob: `render` is
   * JSONEncoder's bytes of a tree in base64 (how `Data` is encoded),
   * `parse` reads such a string back (`None` when it is not base64 or
   * not JSON).
   */
  datatype BlobCodec = BlobCodec(render: Json -> string, parse: string -> Option<Json>)

  /** The codec reads back every tree it renders. */
  ghost predicate Faithful(codec: BlobCodec) {
    forall j :: codec.parse(codec.render(j)) == Some(j)
  }

  datatype QueuedFunctionCall = QueuedFunctionCall(
    id: string,
    name: string,
    parameters: map<string, Any>,
    timestamp: Date,
    retryCount: Int64)

  /** `QueuedFunctionCall.init`: the id and timestamp defaults (a UUID, now) come from the caller; retryCount defaults to 0. */
  function NewQueuedCall(id: string, name: string, parameters: map<string, Any>, timestamp: Date,
                         retryCount: Int64 := 0): (q: QueuedFunctionCall)
    ensures q.id == id && q.name == name && q.parameters == parameters && q.timestamp == timestamp
    ensures q.retryCount == retryCount
  {
    QueuedFunctionCall(id, name, parameters, timestamp, retryCount)
  }

  /** `encode(to:)`: the parameters go in as a blob, and are left out when they cannot be encoded. */
  function EncodeQueued(codec: BlobCodec, q: QueuedFunctionCall): (j: Json)
    ensures j.JObject? && {"id", "name", "timestamp", "retryCount"} <= j.fields.Keys
    ensures j.fields["id"] == JString(q.id) && j.fields["name"] == JString(q.name)
    ensures j.fields["timestamp"] == NumberToken(q.timestamp.sinceReferenceDate) && j.fields["retryCount"] == JInt(q.retryCount)
    ensures "parameters" in j.fields <==> EncodeMap(q.parameters).Success?
    ensures "parameters" in j.fields ==> j.fields["parameters"] == JString(codec.render(JObject(EncodeMap(q.parameters).value)))
  {
    var fields := map[
      "id" := JString(q.id),
      "name" := JString(q.name),
      "timestamp" := NumberToken(q.timestamp.sinceReferenceDate),
      "retryCount" := JInt(q.retryCount)];
    match EncodeMap(q.parameters)
    case Success(m) => JObject(fields["parameters" := JString(codec.render(JObject(m)))])
    case Failure(_) => JObject(fields)
  }

  /** The nested blob read back: any failure along the way gives empty parameters. */
  function BlobParameters(codec: BlobCodec, c: Fields): map<string, Any> {
    if "parameters" in c && c["parameters"].JString?
       && codec.parse(c["parameters"].s).Some? && codec.parse(c["parameters"].s).value.JObject?
    then DecodeMap(codec.parse(c["parameters"].s).value.fields)
    else map[]
  }

  /** `init(from:)`: id, name, timestamp and retryCount are required; the parameters are not. */
  function DecodeQueued(codec: BlobCodec, j: Json): (r: Result<QueuedFunctionCall, DecodingError>)
    ensures r.Success? ==> j.JObject? && {"id", "name", "timestamp", "retryCount"} <= j.fields.Keys
    ensures r.Success? ==> j.fields["id"] == JString(r.value.id) && j.fields["name"] == JString(r.value.name)
    ensures r.Success? ==> r.value.parameters == BlobParameters(codec, j.fields)
  {
    var c :- Container(j);
    var id :- DecodeString(c, "id");
    var name :- DecodeString(c, "name");
    var timestamp :- DecodeDouble(c, "timestamp");
    var retryCount :- DecodeInt(c, "retryCount");
    Success(QueuedFunctionCall(id, name, BlobParameters(codec, c), Date(timestamp), retryCount))
  }

  /** The snapshot: the array of encoded calls. */
  function EncodeQueue(codec: BlobCodec, calls: seq<QueuedFunctionCall>): Json {
    JArray(seq(|calls|, i requires 0 <= i < |calls| => EncodeQueued(codec, calls[i])))
  }

  /** `[QueuedFunctionCall]` decoding: an array whose every element decodes. */
  function DecodeQueue(codec: BlobCodec, j: Json): Option<seq<QueuedFunctionCall>> {
    if j.JArray? && forall i :: 0 <= i < |j.items| ==> DecodeQueued(codec, j.items[i]).Success? then
      Some(seq(|j.items|, i requires 0 <= i < |j.items| => DecodeQueued(codec, j.items[i]).value))
    else None
  }

  /** `loadQueue()`: the stored queue, or an empty one when nothing is stored or it does not decode. */
  function Load(codec: BlobCodec, stored: Option<Json>): (r: seq<QueuedFunctionCall>)
    ensures stored.None? ==> r == []
    ensures r != [] ==> stored.Some? && stored.value.JArray? && |r| == |stored.value.items|
    ensures r != [] ==> forall i :: 0 <= i < |r| ==> DecodeQueued(codec, stored.value.items[i]) == Success(r[i])
  {
    if stored.Some? && DecodeQueue(codec, stored.value).Some? then DecodeQueue(codec, stored.value).value else []
  }

  /**
   * What the round trip keeps of a call: parameters that cannot be encoded
   * come back empty, whole doubles in them come back as integers, and a
   * negative-zero timestamp comes back as a positive one.
   */
  function Persistable(q: QueuedFunctionCall): (r: QueuedFunctionCall)
    ensures r.id == q.id && r.name == q.name && r.retryCount == q.retryCount
    ensures DateEquals(r.timestamp, q.timestamp)
    ensures EncodableMap(q.parameters) ==> r.parameters.Keys == q.parameters.Keys
    ensures !EncodableMap(q.parameters) ==> r.parameters == map[]
  {
    q.(parameters := if EncodableMap(q.parameters) then NormalMap(q.parameters) else map[],
       timestamp := Date(ReadBack(q.timestamp.sinceReferenceDate)))
  }

  /**
   * A queued call reads back with every field as `Persistable` keeps it; a
   * missing, non-string or unreadable parameters entry never makes
   * decoding fail.
   */
  lemma QueuedRoundTrip(codec: BlobCodec, q: QueuedFunctionCall)
    requires Faithful(codec)
    ensures DecodeQueued(codec, EncodeQueued(codec, q)) == Success(Persistable(q))
  {
    var c := EncodeQueued(codec, q).fields;
    var r := Persistable(q);
    assert DecodeString(c, "id") == Success(q.id);
    assert DecodeString(c, "name") == Success(q.name);
    assert DecodeDouble(c, "timestamp") == Success(r.timestamp.sinceReferenceDate) by {
      assert c["timestamp"] == NumberToken(q.timestamp.sinceReferenceDate);
      DoubleRoundTrip(q.timestamp.sinceReferenceDate, c, "timestamp");
    }
    assert DecodeInt(c, "retryCount") == Success(q.retryCount);
    BlobRoundTrip(codec, q);
    assert DecodeQueued(codec, JObject(c)) == Success(QueuedFunctionCall(q.id, q.name, r.parameters, r.timestamp, q.retryCount));
  }

  /** The parameters blob reads back as `Persistable` keeps the parameters. */
  lemma BlobRoundTrip(codec: BlobCodec, q: QueuedFunctionCall)
    requires Faithful(codec)
    ensures BlobParameters(codec, EncodeQueued(codec, q).fields) == Persistable(q).parameters
  {
    EncodeMapFailsIff(q.parameters);
    if EncodableMap(q.parameters) {
      EncodeMapRoundTrip(q.parameters);
      var m := EncodeMap(q.parameters).value;
      assert codec.parse(codec.render(JObject(m))) == Some(JObject(m));
    }
  }

  lemma QueuedRequiredKeys(codec: BlobCodec, j: Json)
    ensures DecodeQueued(codec, j).Success? <==>
      j.JObject? && "id" in j.fields && j.fields["id"].JString? && "name" in j.fields && j.fields["name"].JString? &&
      "timestamp" in j.fields && (j.fields["timestamp"].JDouble? || j.fields["timestamp"].JInt?) &&
      "retryCount" in j.fields &&
      (j.fields["retryCount"].JInt? || (j.fields["retryCount"].JDouble? && WholeInt(j.fields["retryCount"].d).Some?))
    ensures DecodeQueued(codec, j).Success? && ("parameters" !in j.fields || !j.fields["parameters"].JString?) ==>
      DecodeQueued(codec, j).value.parameters == map[]
  {
  }

  /** A saved queue loads back in order, each call as `Persistable` keeps it; nothing stored loads as empty. */
  lemma SaveThenLoad(codec: BlobCodec, calls: seq<QueuedFunctionCall>)
    requires Faithful(codec)
    ensures Load(codec, Some(EncodeQueue(codec, calls))) ==
      seq(|calls|, i requires 0 <= i < |calls| => Persistable(calls[i]))
    ensures Load(codec, None) == []
  {
    var j := EncodeQueue(codec, calls);
    forall i | 0 <= i < |calls|
      ensures DecodeQueued(codec, j.items[i]) == Success(Persistable(calls[i]))
    {
      QueuedRoundTrip(codec, calls[i]);
    }
  }

  /** A snapshot that is not an array of decodable calls loads as an empty queue. */
  lemma UndecodableLoadsEmpty(codec: BlobCodec, j: Json)
    requires !j.JArray? || exists i :: 0 <= i < |j.items| && DecodeQueued(codec, j.items[i]).Failure?
    ensures Load(codec, Some(j)) == []
  {
  }

  /** The positions, below `n`, of the calls whose attempt failed, in increasing order. */
  function FailedPositions(calls: seq<QueuedFunctionCall>, attempt: (nat, QueuedFunctionCall) -> bool, n: nat): (ps: seq<nat>)
    requires n <= |calls|
    ensures forall k :: 0 <= k < |ps| ==> ps[k] < n
  {
    if n == 0 then []
    else FailedPositions(calls, attempt, n - 1) + (if attempt(n - 1, calls[n - 1]) then [] else [n - 1])
  }

  function Pick(calls: seq<QueuedFunctionCall>, ps: seq<nat>): seq<QueuedFunctionCall>
    requires forall k :: 0 <= k < |ps| ==> ps[k] < |calls|
  {
    seq(|ps|, k requires 0 <= k < |ps| => calls[ps[k]])
  }

  /** The queue after a replay pass: the calls whose attempt failed, in their original order. */
  function Requeued(calls: seq<QueuedFunctionCall>, attempt: (nat, QueuedFunctionCall) -> bool): seq<QueuedFunctionCall> {
    Pick(calls, FailedPositions(calls, attempt, |calls|))
  }

  /**
   * The positions picked are strictly increasing, and a position is picked
   * exactly when that call's attempt failed.
   */
  lemma {:induction false} FailedPositionsExact(calls: seq<QueuedFunctionCall>, attempt: (nat, QueuedFunctionCall) -> bool, n: nat)
    requires n <= |calls|
    ensures var ps := FailedPositions(calls, attempt, n);
      (forall k, l :: 0 <= k < l < |ps| ==> ps[k] < ps[l]) &&
      (forall i :: 0 <= i < n ==> (i in ps <==> !attempt(i, calls[i])))
  {
    if n > 0 {
      FailedPositionsExact(calls, attempt, n - 1);
      var prev := FailedPositions(calls, attempt, n - 1);
      var ps := FailedPositions(calls, attempt, n);
      assert forall i :: 0 <= i < n - 1 ==> (i in ps <==> i in prev);
    }
  }

  /** One more position of the pass: the call is added to the failures exactly when its attempt failed. */
  lemma RequeuedStep(calls: seq<QueuedFunctionCall>, attempt: (nat, QueuedFunctionCall) -> bool, n: nat)
    requires n < |calls|
    ensures Pick(calls, FailedPositions(calls, attempt, n + 1)) ==
      Pick(calls, FailedPositions(calls, attempt, n)) + (if attempt(n, calls[n]) then [] else [calls[n]])
  {
  }

  /** All attempts succeeding empties the queue; all failing leaves it as it was. */
  lemma RequeuedExtremes(calls: seq<QueuedFunctionCall>, attempt: (nat, QueuedFunctionCall) -> bool)
    ensures (forall i :: 0 <= i < |calls| ==> attempt(i, calls[i])) ==> Requeued(calls, attempt) == []
    ensures (forall i :: 0 <= i < |calls| ==> !attempt(i, calls[i])) ==> Requeued(calls, attempt) == calls
  {
    if forall i :: 0 <= i < |calls| ==> attempt(i, calls[i]) {
      NoFailedPositions(calls, attempt, |calls|);
    }
    if forall i :: 0 <= i < |calls| ==> !attempt(i, calls[i]) {
      AllFailedPositions(calls, attempt, |calls|);
    }
  }

  lemma {:induction false} NoFailedPositions(calls: seq<QueuedFunctionCall>, attempt: (nat, QueuedFunctionCall) -> bool, n: nat)
    requires n <= |calls|
    requires forall i :: 0 <= i < |calls| ==> attempt(i, calls[i])
    ensures FailedPositions(calls, attempt, n) == []
  {
    if n > 0 {
      NoFailedPositions(calls, attempt, n - 1);
    }
  }

  lemma {:induction false} AllFailedPositions(calls: seq<QueuedFunctionCall>, attempt: (nat, QueuedFunctionCall) -> bool, n: nat)
    requires n <= |calls|
    requires forall i :: 0 <= i < |calls| ==> !attempt(i, calls[i])
    ensures FailedPositions(calls, attempt, n) == seq(n, i => i)
  {
    if n > 0 {
      AllFailedPositions(calls, attempt, n - 1);
    }
  }

  /** `handleConnectionChange`: whether a replay pass is started. */
  function TriggersSync(wasOffline: bool, state: ConnectionState): bool {
    wasOffline && state.IsConnected()
  }

  class QueueService {
    var pendingCalls: seq<QueuedFunctionCall>
    var isSyncing: bool
    var isOffline: bool
    /** The value stored under "offlineFunctionQueue"; `None` when nothing is stored. */
    var stored: Option<Json>
    const codec: BlobCodec

    /** The snapshot matches the queue in memory. */
    predicate Saved()
      reads this
    {
      stored == Some(EncodeQueue(codec, pendingCalls))
    }

    /** `init`: load whatever is stored; both flags start false. */
    constructor (codec: BlobCodec, stored: Option<Json>)
      ensures this.codec == codec && this.stored == stored
      ensures pendingCalls == Load(codec, stored) && !isSyncing && !isOffline
    {
      this.codec := codec;
      this.stored := stored;
      pendingCalls := Load(codec, stored);
      isSyncing := false;
      isOffline := false;
    }

    /** `saveQueue()`: encoding the array cannot fail, so the snapshot is always rewritten. */
    method SaveQueue()
      modifies this`stored
      ensures Saved()
    {
      stored := Some(EncodeQueue(codec, pendingCalls));
    }

    method Enqueue(call: QueuedFunctionCall)
      modifies this`pendingCalls, this`stored
      ensures pendingCalls == old(pendingCalls) + [call] && Saved()
    {
      pendingCalls := pendingCalls + [call];
      SaveQueue();
    }

    method Dequeue() returns (r: Option<QueuedFunctionCall>)
      modifies this`pendingCalls, this`stored
      ensures old(pendingCalls) == [] ==> r == None && pendingCalls == [] && stored == old(stored)
      ensures old(pendingCalls) != [] ==> r == Some(old(pendingCalls)[0]) && pendingCalls == old(pendingCalls)[1..] && Saved()
    {
      if pendingCalls == [] {
        return None;
      }
      var call := pendingCalls[0];
      pendingCalls := pendingCalls[1..];
      SaveQueue();
      return Some(call);
    }

    function Peek(): (r: Option<QueuedFunctionCall>)
      reads this
      ensures r.Some? <==> |pendingCalls| > 0
      ensures r.Some? ==> r.value == pendingCalls[0]
    {
      if |pendingCalls| == 0 then None else Some(pendingCalls[0])
    }

    function GetAllPending(): (r: seq<QueuedFunctionCall>)
      reads this
      ensures |r| == |pendingCalls| && (forall i :: 0 <= i < |r| ==> r[i] == pendingCalls[i])
    {
      pendingCalls
    }

    function Count(): (n: nat)
      reads this
      ensures n == |GetAllPending()|
      ensures n == 0 <==> Peek().None?
    {
      |pendingCalls|
    }

    method ClearQueue()
      modifies this`pendingCalls, this`stored
      ensures pendingCalls == [] && Saved()
    {
      pendingCalls := [];
      SaveQueue();
    }

    /**
     * `handleConnectionChange`: record whether the app is offline, and
     * report whether a replay pass is started (only on an offline to
     * connected edge).
     */
    method HandleConnectionChange(state: ConnectionState) returns (syncStarted: bool)
      modifies this`isOffline
      ensures isOffline == !state.IsConnected()
      ensures syncStarted == TriggersSync(old(isOffline), state)
    {
      var wasOffline := isOffline;
      isOffline := !state.IsConnected();
      syncStarted := wasOffline && state.IsConnected();
    }

    /**
     * `syncPendingCalls`: with calls queued and the service available,
     * drain the whole queue attempting each call once (`attempt` is the
     * call's outcome, given its position in the pass), then re-enqueue the
     * failures in their original order.
     */
    method SyncPendingCalls(serviceAvailable: bool, attempt: (nat, QueuedFunctionCall) -> bool)
      returns (attempted: seq<QueuedFunctionCall>)
      modifies this`pendingCalls, this`stored, this`isSyncing
      ensures old(pendingCalls) == [] || !serviceAvailable ==>
        attempted == [] && pendingCalls == old(pendingCalls) && stored == old(stored) && isSyncing == old(isSyncing)
      ensures old(pendingCalls) != [] && serviceAvailable ==>
        attempted == old(pendingCalls) && pendingCalls == Requeued(old(pendingCalls), attempt) && !isSyncing && Saved()
    {
      attempted := [];
      if pendingCalls == [] || !serviceAvailable {
        return;
      }
      isSyncing := true;
      var failed;
      attempted, failed := Drain(attempt);
      for k := 0 to |failed|
        invariant pendingCalls == failed[..k] && Saved()
      {
        Enqueue(failed[k]);
        assert failed[..k + 1] == failed[..k] + [failed[k]];
      }
      assert failed[..|failed|] == failed;
      isSyncing := false;
    }

    /** The `while let call = dequeue()` loop of the replay pass. */
    method Drain(attempt: (nat, QueuedFunctionCall) -> bool)
      returns (attempted: seq<QueuedFunctionCall>, failed: seq<QueuedFunctionCall>)
      requires pendingCalls != []
      modifies this`pendingCalls, this`stored
      ensures attempted == old(pendingCalls) && failed == Requeued(old(pendingCalls), attempt)
      ensures pendingCalls == [] && Saved()
    {
      ghost var start := pendingCalls;
      attempted, failed := [], [];
      var i: nat := 0;
      var next := Dequeue();
      while next.Some?
        invariant i <= |start|
        invariant next.Some? ==> i < |start| && next.value == start[i] && pendingCalls == start[i + 1..]
        invariant next.None? ==> i == |start| && pendingCalls == []
        invariant attempted == start[..i]
        invariant failed == Pick(start, FailedPositions(start, attempt, i))
        invariant Saved()
        decreases |start| - i
      {
        RequeuedStep(start, attempt, i);
        assert start[..i + 1] == start[..i] + [start[i]];
        attempted := attempted + [next.value];
        if !attempt(i, next.value) {
          failed := failed + [next.value];
        }
        i := i + 1;
        next := Dequeue();
      }
      assert start[..i] == start;
    }
  }
}
