/// NEONBridge, the debug overlay's channel to the engine (neon-bridge.js): request ids
/// drawn from a counter, callbacks waiting for a reply, per-event handler lists, and the
/// replies simulated when the engine is absent.
///
/// JavaScript values are Json values; `undefined` is None where it can occur. The
/// callbacks and handlers are opaque functions, identified by a number; what they do when
/// called is not modelled, only that and with what they are called.
module DebugBridge {
  import opened Wrappers
  import opened Json
  import Text

  // ---------------------------------------------------------------- request ids

  const IdPrefix: string := "req_"

  /// generateRequestId's text: "req_" + counter + "_" + milliseconds.
  function RequestIdText(n: nat, time: int): string
  {
    IdPrefix + Text.NatToString(n) + "_" + Text.IntToString(time)
  }

  /// The parts of `s` around the first `c`.
  function SplitAt(s: string, c: char): (r: Option<(string, string)>)
    ensures r.None? <==> c !in s
    ensures r.Some? ==> c !in r.value.0 && s == r.value.0 + [c] + r.value.1
  {
    if s == [] then None
    else if s[0] == c then Some(([], s[1..]))
    else
      match SplitAt(s[1..], c)
      case None => None
      case Some((before, after)) => Some(([s[0]] + before, after))
  }

  lemma {:induction false} SplitAtFirst(a: string, c: char, b: string)
    requires c !in a
    ensures SplitAt(a + [c] + b, c) == Some((a, b))
  {
    if a == [] {
      assert a + [c] + b == [c] + b;
    } else {
      assert (a + [c] + b)[1..] == a[1..] + [c] + b;
      SplitAtFirst(a[1..], c, b);
      assert [a[0]] + a[1..] == a;
    }
  }

  /// Reads a request id back into its counter and time.
  function ParseRequestId(id: string): Option<(nat, int)>
  {
    if |id| < |IdPrefix| || id[..|IdPrefix|] != IdPrefix then None
    else
      match SplitAt(id[|IdPrefix|..], '_')
      case None => None
      case Some((digits, time)) =>
        if digits == [] || !Text.AllDigits(digits) then None
        else
          match Text.ParseInt(time)
          case None => None
          case Some(t) => Some((Text.ParseDigits(digits), t))
  }

  lemma RequestIdRoundTrip(n: nat, time: int)
    ensures ParseRequestId(RequestIdText(n, time)) == Some((n, time))
  {
    var digits := Text.NatToString(n);
    var id := RequestIdText(n, time);
    assert id[|IdPrefix|..] == digits + ['_'] + Text.IntToString(time);
    assert forall i :: 0 <= i < |digits| ==> digits[i] != '_';
    SplitAtFirst(digits, '_', Text.IntToString(time));
    Text.ParseNatToString(n);
    Text.IntToStringRoundTrip(time);
  }

  /// Two ids are equal only when drawn with the same counter and time, so ids drawn from
  /// an increasing counter never repeat.
  lemma RequestIdInjective(n1: nat, t1: int, n2: nat, t2: int)
    requires RequestIdText(n1, t1) == RequestIdText(n2, t2)
    ensures n1 == n2 && t1 == t2
  {
    RequestIdRoundTrip(n1, t1);
    RequestIdRoundTrip(n2, t2);
  }

  /// Every key of `pending` was drawn with a counter value of at most `counter`.
  predicate IssuedUpTo(pending: map<string, Handler>, counter: nat)
  {
    forall id :: id in pending ==> ParseRequestId(id).Some? && ParseRequestId(id).value.0 <= counter
  }

  /// The next id is not a key of the pending table.
  lemma FreshRequestId(pending: map<string, Handler>, counter: nat, time: int)
    requires IssuedUpTo(pending, counter)
    ensures RequestIdText(counter + 1, time) !in pending
  {
    RequestIdRoundTrip(counter + 1, time);
  }

  /// The pending table after a callback, if any, is kept under `id`.
  function KeptUnder(pending: map<string, Handler>, id: string, keep: Option<Handler>): map<string, Handler>
  {
    if keep.Some? then pending[id := keep.value] else pending
  }

  /// Drawing the next id and keeping a callback under it keeps every pending id issued.
  lemma IssuedAfterDraw(pending: map<string, Handler>, counter: nat, next: nat, time: int, keep: Option<Handler>)
    requires IssuedUpTo(pending, counter) && next == counter + 1
    ensures RequestIdText(next, time) !in pending
    ensures IssuedUpTo(KeptUnder(pending, RequestIdText(next, time), keep), next)
  {
    RequestIdRoundTrip(next, time);
  }

  // ---------------------------------------------------------------- values

  /// A JavaScript function the page passed in.
  datatype Handler = Handler(id: nat)

  /// ue.interface.broadcast as one call finds it: missing, present, or throwing.
  datatype Broadcast = NoBroadcast | Broadcasts | Throws(message: string)

  /// JavaScript truthiness of a value.
  predicate IsTruthy(v: Value)
  {
    match v
    case JNull => false
    case JBool(b) => b
    case JNumber(n) => n != 0
    case JString(s) => s != ""
    case JArray(_) => true
    case JObject(_) => true
  }

  /// { error }
  function ErrorObject(error: Value): Value
  {
    JObject(map["error" := error])
  }

  /// The 'neon_ui_ready' payload.
  function ReadyPayload(now: int): Value
  {
    JObject(map["timestamp" := JNumber(now), "component" := JString("debug-overlay")])
  }

  /// The 'neon_command' payload; `data` defaults to {}.
  function CommandRequest(id: string, command: string, data: Option<Value>, now: int): Value
  {
    JObject(map["requestId" := JString(id), "command" := JString(command),
                "data" := if data.Some? then data.value else JObject(map[]),
                "timestamp" := JNumber(now)])
  }

  /// The key handleResponse looks up: a Map key matches only a string.
  function ResponseKey(response: map<string, Value>): Option<string>
  {
    if "requestId" in response && response["requestId"].JString? then Some(response["requestId"].s) else None
  }

  /// What the callback receives: { error } when the error is truthy, else the data.
  function ResponseArgument(response: map<string, Value>): (a: Option<Value>)
    ensures "error" in response && IsTruthy(response["error"]) ==> a == Some(ErrorObject(response["error"]))
    ensures !("error" in response && IsTruthy(response["error"])) ==>
      (a.Some? <==> "data" in response) && (a.Some? ==> a.value == response["data"])
  {
    if "error" in response && IsTruthy(response["error"]) then Some(ErrorObject(response["error"]))
    else if "data" in response then Some(response["data"])
    else None
  }

  /// The handlers registered for an event type, in order.
  function Listeners(table: map<string, seq<Handler>>, eventType: string): seq<Handler>
  {
    if eventType in table then table[eventType] else []
  }

  /// The position of the first `h` in `s`, or -1 (indexOf).
  function IndexOf(s: seq<Handler>, h: Handler): (i: int)
    ensures i == -1 <==> h !in s
    ensures i != -1 ==> 0 <= i < |s| && s[i] == h && h !in s[..i]
  {
    if s == [] then -1
    else if s[0] == h then 0
    else
      var j := IndexOf(s[1..], h);
      if j == -1 then -1
      else
        assert s[..j + 1] == [s[0]] + s[1..][..j];
        j + 1
  }

  /// The list with its first `h` spliced out.
  function RemoveFirst(s: seq<Handler>, h: Handler): seq<Handler>
  {
    var i := IndexOf(s, h);
    if i == -1 then s else s[..i] + s[i + 1..]
  }

  /// Removing takes out exactly one copy of a present handler, keeps the order of the
  /// rest, and undoes an add of a handler that was not yet present.
  lemma RemoveFirstProperties(s: seq<Handler>, h: Handler)
    ensures h !in s ==> RemoveFirst(s, h) == s
    ensures h in s ==> multiset(RemoveFirst(s, h)) == multiset(s) - multiset{h}
    ensures h !in s ==> RemoveFirst(s + [h], h) == s
  {
    if h in s {
      var i := IndexOf(s, h);
      assert s == s[..i] + [h] + s[i + 1..];
      assert multiset(s) == multiset(s[..i]) + multiset{h} + multiset(s[i + 1..]);
    } else {
      var t := s + [h];
      assert t[|s|] == h;
      assert t[..|s|] == s;
      assert IndexOf(t, h) == |s|;
      assert t[|s| + 1..] == [];
    }
  }

  /// The calls handleEvent makes: every handler, in order, with the event's data.
  function EventCalls(handlers: seq<Handler>, data: Value): (c: seq<(Handler, Option<Value>)>)
    ensures |c| == |handlers|
  {
    seq(|handlers|, i requires 0 <= i < |handlers| => (handlers[i], Some(data)))
  }

  /// The errors handleEvent logs: one for each handler that throws, in order.
  function ThrownBy(eventType: string, handlers: seq<Handler>, throwing: set<Handler>): (e: seq<(string, Handler)>)
    ensures |e| <= |handlers|
    ensures forall k :: 0 <= k < |e| ==> e[k].0 == eventType && e[k].1 in throwing && e[k].1 in handlers
  {
    if handlers == [] then []
    else
      var init := handlers[..|handlers| - 1];
      var last := handlers[|handlers| - 1];
      ThrownBy(eventType, init, throwing) + if last in throwing then [(eventType, last)] else []
  }

  // ---------------------------------------------------------------- the bridge

  class Bridge {
    /// `ue` is defined and not null.
    const isUE5Available: bool
    var requestId: nat
    var pendingRequests: map<string, Handler>
    var eventHandlers: map<string, seq<Handler>>
    /// What was passed to ue.interface.broadcast, in order.
    var sent: seq<(string, Value)>
    /// The callbacks and handlers called, with their argument.
    var calls: seq<(Handler, Option<Value>)>
    /// The errors logged for throwing event handlers.
    var handlerErrors: seq<(string, Handler)>

    /// Every pending id was drawn from the counter.
    predicate Valid()
      reads this`pendingRequests, this`requestId
    {
      IssuedUpTo(pendingRequests, requestId)
    }

    /// The constructor announces the overlay when the engine is there (a throw is caught).
    constructor (ue5Available: bool, broadcast: Broadcast, now: int)
      ensures isUE5Available == ue5Available
      ensures requestId == 0 && pendingRequests == map[] && eventHandlers == map[]
      ensures calls == [] && handlerErrors == []
      ensures sent == if ue5Available && broadcast == Broadcasts then [("neon_ui_ready", ReadyPayload(now))] else []
      ensures Valid()
    {
      isUE5Available := ue5Available;
      requestId := 0;
      pendingRequests := map[];
      eventHandlers := map[];
      calls := [];
      handlerErrors := [];
      if ue5Available && broadcast == Broadcasts {
        sent := [("neon_ui_ready", ReadyPayload(now))];
      } else {
        sent := [];
      }
    }

    /// generateRequestId: the counter goes up first, so the first id carries 1.
    method GenerateRequestId(now: int) returns (id: string)
      modifies this`requestId
      ensures requestId == old(requestId) + 1
      ensures id == RequestIdText(requestId, now)
    {
      requestId := requestId + 1;
      id := RequestIdText(requestId, now);
    }

    /// sendCommand: the id is fresh and a given callback is kept under it. When the
    /// broadcast throws, the callback is called with { error } and then dropped; a callback
    /// in `throwing` throws in its turn before the delete, so it stays pending and the
    /// exception escapes (`escaped`: the returned promise rejects). In standalone mode the
    /// reply comes later from a timer (SimulatedResponse).
    method SendCommand(command: string, data: Option<Value>, callback: Option<Handler>,
                       idTime: int, now: int, broadcast: Broadcast, throwing: set<Handler>)
      returns (id: string, escaped: bool)
      requires Valid()
      modifies this`requestId, this`pendingRequests, this`sent, this`calls
      ensures Valid()
      ensures requestId == old(requestId) + 1 && id == RequestIdText(requestId, idTime)
      ensures id !in old(pendingRequests)
      ensures sent == old(sent) +
        if isUE5Available && broadcast == Broadcasts then [("neon_command", CommandRequest(id, command, data, now))] else []
      ensures calls == old(calls) +
        if isUE5Available && broadcast.Throws? && callback.Some?
        then [(callback.value, Some(ErrorObject(JString(broadcast.message))))] else []
      ensures escaped <==> isUE5Available && broadcast.Throws? && callback.Some? && callback.value in throwing
      ensures callback.None? || (isUE5Available && broadcast.Throws? && !escaped) ==>
        pendingRequests == old(pendingRequests)
      ensures callback.Some? && !(isUE5Available && broadcast.Throws? && !escaped) ==>
        pendingRequests == old(pendingRequests)[id := callback.value]
    {
      var thrown := isUE5Available && broadcast.Throws?;
      escaped := thrown && callback.Some? && callback.value in throwing;
      var keep := if callback.Some? && (!thrown || escaped) then callback else None;
      var before := pendingRequests;
      ghost var counter := requestId;
      id := GenerateRequestId(idTime);
      IssuedAfterDraw(before, counter, requestId, idTime, keep);
      pendingRequests := KeptUnder(before, id, keep);
      if isUE5Available && broadcast == Broadcasts {
        sent := sent + [("neon_command", CommandRequest(id, command, data, now))];
      }
      if thrown && callback.Some? {
        calls := calls + [(callback.value, Some(ErrorObject(JString(broadcast.message))))];
      }
    }

    /// handleResponse: a pending id's callback is called and then dropped; a callback in
    /// `throwing` throws before the delete, so its id stays pending (a later reply calls it
    /// again) and the exception escapes. Any other reply changes nothing.
    method HandleResponse(response: map<string, Value>, throwing: set<Handler>) returns (escaped: bool)
      requires Valid()
      modifies this`pendingRequests, this`calls
      ensures Valid()
      ensures var key := ResponseKey(response);
        escaped <==> key.Some? && key.value in old(pendingRequests) && old(pendingRequests)[key.value] in throwing
      ensures var key := ResponseKey(response);
        if key.Some? && key.value in old(pendingRequests) then
          calls == old(calls) + [(old(pendingRequests)[key.value], ResponseArgument(response))]
          && pendingRequests == if escaped then old(pendingRequests) else old(pendingRequests) - {key.value}
        else
          calls == old(calls) && pendingRequests == old(pendingRequests)
    {
      var key := ResponseKey(response);
      escaped := false;
      if key.Some? && key.value in pendingRequests {
        var callback := pendingRequests[key.value];
        calls := calls + [(callback, ResponseArgument(response))];
        escaped := callback in throwing;
        if !escaped {
          pendingRequests := pendingRequests - {key.value};
        }
      }
    }

    /// addEventListener: the list is created on first use and the handler appended.
    method AddEventListener(eventType: string, handler: Handler)
      modifies this`eventHandlers
      ensures eventHandlers == old(eventHandlers)[eventType := Listeners(old(eventHandlers), eventType) + [handler]]
    {
      if eventType !in eventHandlers {
        eventHandlers := eventHandlers[eventType := []];
      }
      eventHandlers := eventHandlers[eventType := eventHandlers[eventType] + [handler]];
    }

    /// removeEventListener: the first copy of the handler is spliced out; an unknown type
    /// or handler changes nothing, and an emptied list stays in the table.
    method RemoveEventListener(eventType: string, handler: Handler)
      modifies this`eventHandlers
      ensures eventType !in old(eventHandlers) ==> eventHandlers == old(eventHandlers)
      ensures eventType in old(eventHandlers) ==>
        eventHandlers == old(eventHandlers)[eventType := RemoveFirst(old(eventHandlers)[eventType], handler)]
    {
      if eventType in eventHandlers {
        var handlers := eventHandlers[eventType];
        var index := IndexOf(handlers, handler);
        if index > -1 {
          eventHandlers := eventHandlers[eventType := handlers[..index] + handlers[index + 1..]];
        }
      }
    }

    /// handleEvent: every handler of the type is called in order with the data; one that
    /// throws is logged and the loop goes on.
    method HandleEvent(eventType: string, data: Value, throwing: set<Handler>)
      modifies this`calls, this`handlerErrors
      ensures calls == old(calls) + EventCalls(Listeners(eventHandlers, eventType), data)
      ensures handlerErrors == old(handlerErrors) + ThrownBy(eventType, Listeners(eventHandlers, eventType), throwing)
    {
      var handlers := Listeners(eventHandlers, eventType);
      var i := 0;
      while i < |handlers|
        invariant 0 <= i <= |handlers|
        invariant calls == old(calls) + EventCalls(handlers[..i], data)
        invariant handlerErrors == old(handlerErrors) + ThrownBy(eventType, handlers[..i], throwing)
      {
        assert handlers[..i + 1][..i] == handlers[..i];
        calls := calls + [(handlers[i], Some(data))];
        if handlers[i] in throwing {
          handlerErrors := handlerErrors + [(eventType, handlers[i])];
        }
        i := i + 1;
      }
      assert handlers[..i] == handlers;
    }
  }

  // ---------------------------------------------------------------- simulated replies

  /// The text a template literal makes of a value (`undefined` is None).
  function TemplateText(v: Option<Value>): string
  {
    if v.None? then "undefined" else ValueText(v.value)
  }

  function ValueText(v: Value): string
    decreases v, 1, 0
  {
    match v
    case JNull => "null"
    case JBool(b) => if b then "true" else "false"
    case JNumber(n) => Text.IntToString(n)
    case JString(s) => s
    case JArray(items) => JoinedText(items, 0)
    case JObject(_) => "[object Object]"
  }

  /// An array's text: its elements joined with ",", null elements empty.
  function JoinedText(items: seq<Value>, from: nat): string
    requires from <= |items|
    decreases JArray(items), 0, |items| - from
  {
    if from == |items| then ""
    else
      var element := if items[from] == JNull then "" else ValueText(items[from]);
      (if from == 0 then "" else ",") + element + JoinedText(items, from + 1)
  }

  /// `data.<name>`: None for a missing field or a non-object (undefined); reading a field
  /// of null throws, which is Err.
  function Field(data: Value, name: string): Result<Option<Value>, string>
  {
    if data == JNull then Err("Cannot read properties of null")
    else if data.JObject? && name in data.fields then Ok(Some(data.fields[name]))
    else Ok(None)
  }

  const ToggleCommands: set<string> := {
    "toggle_collision_visualization", "toggle_ai_visualization", "toggle_physics_visualization",
    "toggle_rendering_visualization", "toggle_debug_camera"
  }

  /// The object inspect_object answers with.
  function InspectedObject(): Value
  {
    JObject(map[
      "name" := JString("TestActor"),
      "class" := JString("AActor"),
      "location" := JObject(map["x" := JNumber(100), "y" := JNumber(200), "z" := JNumber(300)]),
      "properties" := JArray([
        JString("ActorLocation: (100.0, 200.0, 300.0)"),
        JString("ActorRotation: (0.0, 0.0, 0.0)"),
        JString("ActorScale3D: (1.0, 1.0, 1.0)"),
        JString("bHidden: false")])])
  }

  /// getSimulatedResponse; `stats` stands for the random performance figures.
  function SimulatedResponse(command: string, data: Value, stats: Value): Result<Value, string>
  {
    if command in ToggleCommands then
      match Field(data, "current")
      case Err(e) => Err(e)
      case Ok(current) =>
        Ok(JObject(map["success" := JBool(true), "enabled" := JBool(!(current.Some? && IsTruthy(current.value)))]))
    else if command == "execute_console_command" then
      match Field(data, "command")
      case Err(e) => Err(e)
      case Ok(text) =>
        Ok(JObject(map["success" := JBool(true),
                       "output" := JString("Executed: " + TemplateText(text) + "\nResult: Command executed successfully")]))
    else if command == "get_performance_stats" then Ok(stats)
    else if command == "inspect_object" then Ok(InspectedObject())
    else Ok(JObject(map["success" := JBool(false), "error" := JString("Unknown command: " + command)]))
  }

  /// The data a toggleX call sends.
  function ToggleData(currentState: Value): Value
  {
    JObject(map["current" := currentState])
  }

  /// A toggle answers with the negated truthiness of the state it was sent, so feeding the
  /// answer back toggles back.
  lemma ToggleSimulation(command: string, currentState: Value, stats: Value)
    requires command in ToggleCommands
    ensures SimulatedResponse(command, ToggleData(currentState), stats) ==
      Ok(JObject(map["success" := JBool(true), "enabled" := JBool(!IsTruthy(currentState))]))
    ensures var enabled := JBool(!IsTruthy(currentState));
      SimulatedResponse(command, ToggleData(enabled), stats) ==
        Ok(JObject(map["success" := JBool(true), "enabled" := JBool(IsTruthy(currentState))]))
  {
  }

  /// A command outside the switch, such as getDebugSettings' 'get_debug_settings', is
  /// answered as unknown whatever its data.
  lemma UnknownCommandSimulation(command: string, data: Value, stats: Value)
    requires command !in ToggleCommands
    requires command !in {"execute_console_command", "get_performance_stats", "inspect_object"}
    ensures SimulatedResponse(command, data, stats) ==
      Ok(JObject(map["success" := JBool(false), "error" := JString("Unknown command: " + command)]))
    ensures SimulatedResponse("get_debug_settings", data, stats).Ok?
    ensures SimulatedResponse("get_debug_settings", data, stats).value.fields["success"] == JBool(false)
  {
  }
}
