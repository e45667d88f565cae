/// The page side of the NEON web bridge (neon.js): the calls that send a query to the
/// engine (NEON_Bridge_Unreal) with their fixed error codes 101 to 103, the settling of
/// the returned promise, and the registry of callbacks the engine's scripts invoke
/// (NEON_Bridge_Web).
///
/// JSON.stringify and JSON.parse are taken as exact: a request reaches the engine as the
/// JSON value the page built, and the parse of a text is a parameter.
module NeonJs {
  import opened Wrappers
  import opened Json
  import Text
  import MessageHandler
  import NeonWidget

  const FunctionPrefix: string := "Invoke_"
  const EventPrefix: string := "OnInvoke_"

  /// The object a promise is rejected with.
  datatype Rejection = Rejection(errorCode: int, errorMessage: string)

  const DelegateRequired: Rejection := Rejection(101, "Delegate is required")
  const ResponseUnparseable: Rejection := Rejection(102, "Failed to parse response")
  const CefQueryUndefined: Rejection := Rejection(103, "cefQuery is not defined")

  /// The delegate argument: None for undefined or null. `!delegate` holds for those and
  /// for the empty string.
  predicate DelegateGiven(delegate: Option<string>)
  {
    delegate.Some? && delegate.value != ""
  }

  /// A query sent through window.cefQuery, or a promise rejected before sending.
  datatype Send = NotSent(rejection: Rejection) | Sent(request: Value)

  /// The request body: type, delegate and parameters; `data` defaults to {}.
  function RequestBody(kind: string, delegate: string, data: Option<Value>): Value
  {
    JObject(map["type" := JString(kind), "delegate" := JString(delegate),
                "parameters" := if data.Some? then data.value else JObject(map[])])
  }

  /// invokeUnrealFunction: the delegate is required (101), then cefQuery must exist (103);
  /// the engine is asked for "Invoke_" + delegate.
  function FunctionCall(delegate: Option<string>, data: Option<Value>, hasCefQuery: bool): (s: Send)
    ensures !DelegateGiven(delegate) ==> s == NotSent(DelegateRequired)
    ensures DelegateGiven(delegate) && !hasCefQuery ==> s == NotSent(CefQueryUndefined)
    ensures s.Sent? <==> DelegateGiven(delegate) && hasCefQuery
  {
    if !DelegateGiven(delegate) then NotSent(DelegateRequired)
    else if !hasCefQuery then NotSent(CefQueryUndefined)
    else Sent(RequestBody("function", FunctionPrefix + delegate.value, data))
  }

  /// invokeUnrealEvent (and its alias invokeUnreal): the same checks; the engine is asked
  /// for "OnInvoke_" + delegate.
  function EventCall(delegate: Option<string>, data: Option<Value>, hasCefQuery: bool): (s: Send)
    ensures !DelegateGiven(delegate) ==> s == NotSent(DelegateRequired)
    ensures DelegateGiven(delegate) && !hasCefQuery ==> s == NotSent(CefQueryUndefined)
    ensures s.Sent? <==> DelegateGiven(delegate) && hasCefQuery
  {
    if !DelegateGiven(delegate) then NotSent(DelegateRequired)
    else if !hasCefQuery then NotSent(CefQueryUndefined)
    else Sent(RequestBody("event", EventPrefix + delegate.value, data))
  }

  /// The parameters the engine receives: the data object, or {} when no data was given.
  function ParametersOf(data: Option<Value>): Value
  {
    if data.Some? then data.value else JObject(map[])
  }

  lemma RequestBodyFields(kind: string, delegate: string, data: Option<Value>)
    ensures RequestBody(kind, delegate, data).JObject?
    ensures MessageHandler.FieldText(RequestBody(kind, delegate, data).fields, "type") == kind
    ensures MessageHandler.FieldText(RequestBody(kind, delegate, data).fields, "delegate") == delegate
    ensures "parameters" in RequestBody(kind, delegate, data).fields
    ensures RequestBody(kind, delegate, data).fields["parameters"] == ParametersOf(data)
  {
  }

  /// Every query the page sends passes the engine's first four checks and names the
  /// prefixed delegate; the fifth passes exactly when the data is an object.
  lemma {:induction false} SentFunctionCallDispatches(delegate: Option<string>, data: Option<Value>)
    requires DelegateGiven(delegate)
    ensures FunctionCall(delegate, data, true).Sent?
    ensures MessageHandler.DecodeRequest(Some(FunctionCall(delegate, data, true).request)) ==
      if ParametersOf(data).JObject?
      then MessageHandler.Dispatch(MessageHandler.FunctionDelegate, FunctionPrefix + delegate.value, ParametersOf(data).fields)
      else MessageHandler.Reject(MessageHandler.MissingParametersField)
  {
    var body := RequestBody("function", FunctionPrefix + delegate.value, data);
    RequestBodyFields("function", FunctionPrefix + delegate.value, data);
    assert FunctionPrefix + delegate.value != "";
  }

  lemma {:induction false} SentEventCallDispatches(delegate: Option<string>, data: Option<Value>)
    requires DelegateGiven(delegate)
    ensures EventCall(delegate, data, true).Sent?
    ensures MessageHandler.DecodeRequest(Some(EventCall(delegate, data, true).request)) ==
      if ParametersOf(data).JObject?
      then MessageHandler.Dispatch(MessageHandler.EventDelegate, EventPrefix + delegate.value, ParametersOf(data).fields)
      else MessageHandler.Reject(MessageHandler.MissingParametersField)
  {
    RequestBodyFields("event", EventPrefix + delegate.value, data);
    assert EventPrefix + delegate.value != "";
    assert !Text.EqualsIgnoreCase("event", "function") by {
      assert |Text.Lower("event")| != |Text.Lower("function")|;
    }
  }

  // ---------------------------------------------------------------- settling the promise

  /// How a promise settles.
  datatype Settlement = Resolved(value: Value) | Rejected(rejection: Rejection)

  /// onSuccess of a function call parses the response (102 when it does not parse);
  /// onFailure passes the engine's code and message on. `parsedResponse` is JSON.parse of
  /// the response text, None when it throws.
  function FunctionSettlement(reply: MessageHandler.Reply, parsedResponse: Option<Value>): (s: Settlement)
    ensures reply.Failure? ==> s == Rejected(Rejection(reply.code, reply.message))
    ensures reply.Success? ==> (s.Rejected? <==> parsedResponse.None?)
    ensures reply.Success? && s.Rejected? ==> s.rejection == ResponseUnparseable
    ensures s.Resolved? ==> parsedResponse == Some(s.value)
  {
    match reply
    case Failure(code, message) => Rejected(Rejection(code, message))
    case Success(_) =>
      if parsedResponse.None? then Rejected(ResponseUnparseable) else Resolved(parsedResponse.value)
  }

  /// An event resolves with null on success whatever the response.
  function EventSettlement(reply: MessageHandler.Reply): (s: Settlement)
    ensures reply.Success? <==> s == Resolved(JNull)
    ensures reply.Failure? ==> s == Rejected(Rejection(reply.code, reply.message))
  {
    match reply
    case Failure(code, message) => Rejected(Rejection(code, message))
    case Success(_) => Resolved(JNull)
  }

  /// A missing parameter does not stop the delegate from running, yet the page only sees
  /// the first reply of a query (a CEF query callback answers once), so a function
  /// call with a missing boolean, number or string parameter runs the delegate and still
  /// rejects the page's promise with code 10.
  lemma {:induction false} MissingParameterRunsButRejects(
    functions: seq<MessageHandler.DelegateFunction>, name: string, params: map<string, Value>,
    results: map<string, Value>, parsedResponse: Option<Value>, k: nat)
    requires MessageHandler.FindFunction(functions, name).Some?
    requires var props := MessageHandler.FindFunction(functions, name).value.properties;
      k < |props| && MessageHandler.IsInputParam(props[k]) && props[k].name !in params
      && forall j :: 0 <= j < |props| ==> MessageHandler.IsScalarKind(props[j].kind)
    ensures var inv := MessageHandler.FunctionInvocation(functions, name, params, results);
      inv.invoked && |inv.replies| > 0
      && FunctionSettlement(inv.replies[0], parsedResponse).Rejected?
      && FunctionSettlement(inv.replies[0], parsedResponse).rejection.errorCode == 10
  {
    var props := MessageHandler.FindFunction(functions, name).value.properties;
    MessageHandler.ScalarParametersAlwaysBuild(props, params);
    FirstFailureIsMissing(props, params, k);
  }

  /// With boolean, number and string parameters only, a missing input makes the first
  /// failure sent a missing-parameter failure.
  lemma {:induction false} FirstFailureIsMissing(props: seq<MessageHandler.Property>, params: map<string, Value>, k: nat)
    requires k < |props| && MessageHandler.IsInputParam(props[k]) && props[k].name !in params
    requires forall j :: 0 <= j < |props| ==> MessageHandler.IsScalarKind(props[j].kind)
    ensures |MessageHandler.BuildParams(props, params).failures| > 0
    ensures MessageHandler.BuildParams(props, params).failures[0].Failure?
    ensures MessageHandler.BuildParams(props, params).failures[0].code == 10
  {
    var s := MessageHandler.InputStepOf(props[0], params);
    if !s.Missing? {
      assert k > 0;
      FirstFailureIsMissing(props[1..], params, k - 1);
    }
  }

  // ---------------------------------------------------------------- engine-to-page calls

  /// A JavaScript function value the page registered.
  datatype Handler = Handler(id: nat)

  /// What `invoke` receives as dataRaw, read the way JSON.parse reads it: a missing
  /// argument is the text '{}', a boolean or number parses to itself, and a string is
  /// parsed as JSON text (`parse`, None when it throws).
  function InvokeData(arg: NeonWidget.WebArgument, parse: string -> Option<Value>): Option<Value>
  {
    match arg
    case NoArgument => Some(JObject(map[]))
    case BooleanArgument(b) => Some(JBool(b))
    case IntegerArgument(n) => Some(JNumber(n))
    case StringArgument(s) => parse(s)
  }

  /// NEON_Bridge_Web.invoke: nothing is called when the data does not parse or no
  /// callback has the id; otherwise the callback is called once with the parsed data.
  function InvokeCall(callbacks: map<string, Handler>, id: string, data: Option<Value>): (c: Option<(Handler, Value)>)
    ensures c.Some? <==> data.Some? && id in callbacks
    ensures c.Some? ==> c.value == (callbacks[id], data.value)
  {
    if data.None? || id !in callbacks then None else Some((callbacks[id], data.value))
  }

  /// The callback the page runs for a script of the widget (window.NEON_Bridge_Web_Invoke
  /// is NEON.invoke).
  function PageCall(callbacks: map<string, Handler>, script: string, parse: string -> Option<Value>): Option<(Handler, Value)>
  {
    match NeonWidget.ParseInvocation(script)
    case None => None
    case Some((id, arg)) => InvokeCall(callbacks, id, InvokeData(arg, parse))
  }

  /// The widget's calls reach the callback registered under the method name with the value
  /// it passed.
  lemma NoParamCallReachesCallback(callbacks: map<string, Handler>, m: string, parse: string -> Option<Value>)
    requires NeonWidget.PlainName(m)
    ensures PageCall(callbacks, NeonWidget.NoParamScript(m), parse) ==
      if m in callbacks then Some((callbacks[m], JObject(map[]))) else None
  {
    NeonWidget.NoParamScriptReadsBack(m);
  }

  lemma BooleanCallReachesCallback(callbacks: map<string, Handler>, m: string, parse: string -> Option<Value>, b: bool)
    requires NeonWidget.PlainName(m)
    ensures PageCall(callbacks, NeonWidget.BooleanScript(m, b), parse) ==
      if m in callbacks then Some((callbacks[m], JBool(b))) else None
  {
    NeonWidget.BooleanScriptReadsBack(m, b);
  }

  lemma IntegerCallReachesCallback(callbacks: map<string, Handler>, m: string, parse: string -> Option<Value>,
                                   n: NeonWidget.int32)
    requires NeonWidget.PlainName(m)
    ensures PageCall(callbacks, NeonWidget.IntegerScript(m, n), parse) ==
      if m in callbacks then Some((callbacks[m], JNumber(n as int))) else None
  {
    NeonWidget.IntegerScriptReadsBack(m, n);
  }

  /// A string reaches JSON.parse exactly as it was before escaping.
  lemma StringCallReachesCallback(callbacks: map<string, Handler>, m: string, parse: string -> Option<Value>,
                                  text: string)
    requires NeonWidget.PlainName(m)
    ensures PageCall(callbacks, NeonWidget.StringScript(m, text), parse) ==
      if m in callbacks && parse(text).Some? then Some((callbacks[m], parse(text).value)) else None
  {
    NeonWidget.StringScriptReadsBack(m, text);
  }

  /// NEON_Bridge_Web: the callback table, and the calls made from it.
  class WebBridge {
    var callbacks: map<string, Handler>
    var calls: seq<(Handler, Value)>

    constructor ()
      ensures callbacks == map[] && calls == []
    {
      callbacks := map[];
      calls := [];
    }

    /// registerCallback (NEON.onInvoke): stores the callback, replacing an earlier one.
    method RegisterCallback(id: string, callback: Handler)
      modifies this`callbacks
      ensures callbacks == old(callbacks)[id := callback]
    {
      callbacks := callbacks[id := callback];
    }

    /// invoke: `data` is the parse of dataRaw (InvokeData).
    method Invoke(id: string, data: Option<Value>)
      modifies this`calls
      ensures calls == old(calls) + (match InvokeCall(callbacks, id, data) case None => [] case Some(c) => [c])
    {
      if data.None? {
        return;
      }
      if id !in callbacks {
        return;
      }
      calls := calls + [(callbacks[id], data.value)];
    }
  }
}
