/// The engine side of the NEON web bridge (NEONMessageHandler): a query from the page is
/// a JSON text naming a delegate of the widget. It is checked field by field, dispatched
/// to a function or an event, its parameters are marshalled into the delegate's parameter
/// buffer, and for a function the pure out-parameters are serialised back.
///
/// The CEF callback is modelled by the sequence of replies sent to it. The delegate's
/// parameters are a list of (name, kind, flags); ProcessEvent is an oracle that hands back
/// the value of each out-parameter (a map from name to JSON value).
module MessageHandler {
  import opened Wrappers
  import Text
  import opened Json

  // ---------------------------------------------------------------- error codes

  /// ENEONErrorCode, in declaration order.
  datatype ErrorCode =
    | Unknown
    | InvalidJson
    | MissingDelegateTypeField
    | InvalidDelegateType
    | MissingDelegateField
    | MissingParametersField
    | DelegateNotFound
    | UnsupportedPropertyType
    | InvalidInput
    | UnexpectedParameterType
    | MissingParameter

  /// The number sent to the page for an error code (the enum's underlying value).
  function Code(e: ErrorCode): (c: nat)
    ensures c <= 10
    ensures CodeToError(c) == Some(e)
  {
    match e
    case Unknown => 0
    case InvalidJson => 1
    case MissingDelegateTypeField => 2
    case InvalidDelegateType => 3
    case MissingDelegateField => 4
    case MissingParametersField => 5
    case DelegateNotFound => 6
    case UnsupportedPropertyType => 7
    case InvalidInput => 8
    case UnexpectedParameterType => 9
    case MissingParameter => 10
  }

  /// Reads a number received by the page back as an error code.
  function CodeToError(c: int): (e: Option<ErrorCode>)
    ensures e.Some? <==> 0 <= c <= 10
  {
    if c == 0 then Some(Unknown)
    else if c == 1 then Some(InvalidJson)
    else if c == 2 then Some(MissingDelegateTypeField)
    else if c == 3 then Some(InvalidDelegateType)
    else if c == 4 then Some(MissingDelegateField)
    else if c == 5 then Some(MissingParametersField)
    else if c == 6 then Some(DelegateNotFound)
    else if c == 7 then Some(UnsupportedPropertyType)
    else if c == 8 then Some(InvalidInput)
    else if c == 9 then Some(UnexpectedParameterType)
    else if c == 10 then Some(MissingParameter)
    else None
  }

  /// GetErrorMessage: a fixed text per code; Unknown falls to the default branch.
  function ErrorMessage(e: ErrorCode): (msg: string)
    ensures msg == "Unknown error" <==> e == Unknown
  {
    match e
    case InvalidJson => "Invalid JSON data"
    case MissingDelegateTypeField => "Missing delegate type field"
    case InvalidDelegateType => "Invalid delegate type"
    case MissingDelegateField => "Missing delegate field"
    case MissingParametersField => "Missing parameters field"
    case DelegateNotFound => "Delegate not found"
    case UnsupportedPropertyType => "Unsupported property type"
    case InvalidInput => "Invalid input"
    case UnexpectedParameterType => "Unexpected parameter type"
    case MissingParameter => "Missing parameter"
    case Unknown => "Unknown error"
  }

  /// No two codes share a message, so the page can tell the codes apart by text alone.
  lemma ErrorMessageInjective(a: ErrorCode, b: ErrorCode)
    ensures ErrorMessage(a) == ErrorMessage(b) ==> a == b
  {
  }

  // ---------------------------------------------------------------- replies

  /// What Success carries: nothing for an event, the out-parameter object for a function
  /// (serialised to text by the engine's JSON writer, which the model leaves abstract).
  datatype Response = NoPayload | Payload(fields: map<string, Value>)

  /// One call on the CEF callback.
  datatype Reply = Failure(code: int, message: string) | Success(response: Response)

  function FailureOf(e: ErrorCode): Reply
  {
    Failure(Code(e), ErrorMessage(e))
  }

  const MissingParameterPrefix: string := "Missing parameter: "

  /// The one failure whose message names something: the missing parameter.
  function MissingParameterFailure(name: string): (r: Reply)
    ensures r.Failure? && r.code == 10
    ensures |r.message| == |MissingParameterPrefix| + |name|
    ensures r.message[..|MissingParameterPrefix|] == MissingParameterPrefix
    ensures r.message[|MissingParameterPrefix|..] == name
  {
    Failure(Code(MissingParameter), ErrorMessage(MissingParameter) + ": " + name)
  }

  // ---------------------------------------------------------------- the query

  datatype DelegateKind = FunctionDelegate | EventDelegate

  /// The outcome of the checks on a query: the first failing check, or a dispatch.
  datatype Decision =
    | Reject(error: ErrorCode)
    | Dispatch(kind: DelegateKind, delegate: string, parameters: map<string, Value>)

  /// GetStringField: a string field as it is, a boolean or number field printed, and ""
  /// for a missing field or any other kind of value.
  function FieldText(fields: map<string, Value>, name: string): string
  {
    if name !in fields then ""
    else match fields[name]
      case JString(s) => s
      case JBool(b) => if b then "true" else "false"
      case JNumber(n) => Text.IntToString(n)
      case _ => ""
  }

  predicate IsObject(request: Option<Value>)
  {
    request.Some? && request.value.JObject?
  }

  predicate IsKnownType(t: string)
  {
    Text.EqualsIgnoreCase(t, "function") || Text.EqualsIgnoreCase(t, "event")
  }

  predicate HasParametersObject(fields: map<string, Value>)
  {
    "parameters" in fields && fields["parameters"].JObject?
  }

  /// The checks of OnQuery, in order. `request` is None when the text does not parse.
  function DecodeRequest(request: Option<Value>): (d: Decision)
    ensures d == Reject(InvalidJson) <==> !IsObject(request)
    ensures d == Reject(MissingDelegateTypeField) <==>
      IsObject(request) && FieldText(request.value.fields, "type") == ""
    ensures d == Reject(InvalidDelegateType) <==>
      IsObject(request) && FieldText(request.value.fields, "type") != ""
      && !IsKnownType(FieldText(request.value.fields, "type"))
    ensures d == Reject(MissingDelegateField) <==>
      IsObject(request) && IsKnownType(FieldText(request.value.fields, "type"))
      && FieldText(request.value.fields, "delegate") == ""
    ensures d == Reject(MissingParametersField) <==>
      IsObject(request) && IsKnownType(FieldText(request.value.fields, "type"))
      && FieldText(request.value.fields, "delegate") != ""
      && !HasParametersObject(request.value.fields)
    ensures d.Reject? ==> 1 <= Code(d.error) <= 5
    ensures d.Dispatch? ==>
      IsObject(request) && HasParametersObject(request.value.fields)
      && d.delegate == FieldText(request.value.fields, "delegate") && d.delegate != ""
      && JObject(d.parameters) == request.value.fields["parameters"]
      && (d.kind == FunctionDelegate <==> Text.EqualsIgnoreCase(FieldText(request.value.fields, "type"), "function"))
      && (d.kind == EventDelegate <==> Text.EqualsIgnoreCase(FieldText(request.value.fields, "type"), "event"))
  {
    if !IsObject(request) then Reject(InvalidJson)
    else
      var fields := request.value.fields;
      var t := FieldText(fields, "type");
      if t == "" then Reject(MissingDelegateTypeField)
      else if !IsKnownType(t) then Reject(InvalidDelegateType)
      else if FieldText(fields, "delegate") == "" then Reject(MissingDelegateField)
      else if !HasParametersObject(fields) then Reject(MissingParametersField)
      else
        assert |Text.Lower("function")| != |Text.Lower("event")|;
        Dispatch(if Text.EqualsIgnoreCase(t, "function") then FunctionDelegate else EventDelegate,
                 FieldText(fields, "delegate"), fields["parameters"].fields)
  }

  // ---------------------------------------------------------------- delegate signatures

  datatype NumericKind = FloatingPoint | Integer | OtherNumeric

  /// The property classes the marshalling code tells apart.
  datatype PropKind =
    | BoolProp
    | NumericProp(numeric: NumericKind)
    | StrProp
    | StructProp(structName: string)
    | ArrayProp(inner: PropKind)
    | OtherProp

  /// One property of a UFunction with the flags that decide its role.
  datatype Property = Property(name: string, kind: PropKind, isParm: bool, isOutParm: bool, isReferenceParm: bool)

  datatype DelegateFunction = DelegateFunction(name: string, properties: seq<Property>)

  /// A parameter the page supplies: a parameter that is not a pure out-parameter.
  predicate IsInputParam(p: Property)
  {
    p.isParm && !(p.isOutParm && !p.isReferenceParm)
  }

  /// A parameter the delegate hands back: out, and not passed by reference.
  predicate IsPureOutParam(p: Property)
  {
    p.isParm && p.isOutParm && !p.isReferenceParm
  }

  /// FName comparison ignores case.
  predicate IsJsonObjectWrapper(structName: string)
  {
    Text.EqualsIgnoreCase(structName, "JsonObjectWrapper")
  }

  /// Kinds whose JSON type is only checked with a warning.
  predicate IsScalarKind(k: PropKind)
  {
    k.BoolProp? || k.StrProp? || (k.NumericProp? && k.numeric != OtherNumeric)
  }

  /// The parameters the call marshals: every input, in declaration order.
  function InputParams(props: seq<Property>): (r: seq<Property>)
    ensures forall p :: p in r <==> p in props && IsInputParam(p)
    ensures |r| <= |props|
  {
    if props == [] then []
    else
      assert forall p :: p in props <==> p == props[0] || p in props[1..];
      if IsInputParam(props[0]) then [props[0]] + InputParams(props[1..])
      else InputParams(props[1..])
  }

  /// The parameters the reply carries: every pure out-parameter, in declaration order.
  function PureOutParams(props: seq<Property>): (r: seq<Property>)
    ensures forall p :: p in r <==> p in props && IsPureOutParam(p)
    ensures |r| <= |props|
  {
    if props == [] then []
    else
      assert forall p :: p in props <==> p == props[0] || p in props[1..];
      if IsPureOutParam(props[0]) then [props[0]] + PureOutParams(props[1..])
      else PureOutParams(props[1..])
  }

  /// InputParams keeps the order: it distributes over concatenation and keeps a single
  /// parameter exactly when it is an input. With its membership ensures this makes it the
  /// in-order subsequence of the inputs.
  lemma {:induction false} InputParamsAppend(a: seq<Property>, b: seq<Property>)
    ensures InputParams(a + b) == InputParams(a) + InputParams(b)
    ensures forall p :: InputParams([p]) == (if IsInputParam(p) then [p] else [])
  {
    if a == [] {
      assert a + b == b;
    } else {
      assert InputParams(a + b) == InputParams(a) + InputParams(b) by {
        var t := a + b;
        var h := if IsInputParam(a[0]) then [a[0]] else [];
        assert t[0] == a[0] && t[1..] == a[1..] + b;
        calc {
          InputParams(t);
          h + InputParams(a[1..] + b);
          { InputParamsAppend(a[1..], b); }
          h + (InputParams(a[1..]) + InputParams(b));
          (h + InputParams(a[1..])) + InputParams(b);
          InputParams(a) + InputParams(b);
        }
      }
    }
    forall p ensures InputParams([p]) == (if IsInputParam(p) then [p] else []) {
      assert [p][1..] == [];
    }
  }


  /// PureOutParams keeps the order in the same way.
  lemma {:induction false} PureOutParamsAppend(a: seq<Property>, b: seq<Property>)
    ensures PureOutParams(a + b) == PureOutParams(a) + PureOutParams(b)
    ensures forall p :: PureOutParams([p]) == (if IsPureOutParam(p) then [p] else [])
  {
    if a == [] {
      assert a + b == b;
    } else {
      assert PureOutParams(a + b) == PureOutParams(a) + PureOutParams(b) by {
        var t := a + b;
        var h := if IsPureOutParam(a[0]) then [a[0]] else [];
        assert t[0] == a[0] && t[1..] == a[1..] + b;
        calc {
          PureOutParams(t);
          h + PureOutParams(a[1..] + b);
          { PureOutParamsAppend(a[1..], b); }
          h + (PureOutParams(a[1..]) + PureOutParams(b));
          (h + PureOutParams(a[1..])) + PureOutParams(b);
          PureOutParams(a) + PureOutParams(b);
        }
      }
    }
    forall p ensures PureOutParams([p]) == (if IsPureOutParam(p) then [p] else []) {
      assert [p][1..] == [];
    }
  }


  /// Finds the widget's UFunction by name; FName lookup ignores case.
  function FindFunction(functions: seq<DelegateFunction>, name: string): (f: Option<DelegateFunction>)
    ensures f.Some? <==> exists i :: 0 <= i < |functions| && Text.EqualsIgnoreCase(functions[i].name, name)
    ensures f.Some? ==> f.value in functions && Text.EqualsIgnoreCase(f.value.name, name)
  {
    if functions == [] then None
    else if Text.EqualsIgnoreCase(functions[0].name, name) then Some(functions[0])
    else
      var r := FindFunction(functions[1..], name);
      assert r.Some? ==> exists i :: 0 <= i < |functions| && Text.EqualsIgnoreCase(functions[i].name, name) by {
        if r.Some? {
          var i :| 0 <= i < |functions[1..]| && Text.EqualsIgnoreCase(functions[1..][i].name, name);
          assert functions[i + 1] == functions[1..][i];
        }
      }
      r
  }

  // ---------------------------------------------------------------- input marshalling

  /// What one array element of the given inner kind does to BuildParamsBuffer.
  function InputElementError(inner: PropKind, element: Value): (e: Option<ErrorCode>)
    ensures IsScalarKind(inner) ==> e.None?
    ensures inner.StructProp? && IsJsonObjectWrapper(inner.structName) ==> (e.Some? <==> !element.JObject?)
  {
    match inner
    case BoolProp => None
    case StrProp => None
    case NumericProp(k) => if k == OtherNumeric then Some(UnsupportedPropertyType) else None
    case StructProp(s) =>
      if !IsJsonObjectWrapper(s) then Some(UnsupportedPropertyType)
      else if !element.JObject? then Some(UnexpectedParameterType)
      else None
    case _ => Some(UnsupportedPropertyType)
  }

  /// The first array element that stops the marshalling, in element order.
  /// Element i fails and no earlier element does.
  predicate FirstFailingElement(inner: PropKind, items: seq<Value>, i: int)
  {
    0 <= i < |items| && InputElementError(inner, items[i]).Some?
    && forall j :: 0 <= j < i ==> InputElementError(inner, items[j]).None?
  }

  /// The first array element that stops the marshalling, in element order.
  function FirstElementError(inner: PropKind, items: seq<Value>): (e: Option<ErrorCode>)
    ensures e.None? <==> forall i :: 0 <= i < |items| ==> InputElementError(inner, items[i]).None?
    ensures e.Some? ==> exists i :: FirstFailingElement(inner, items, i) && InputElementError(inner, items[i]) == e
  {
    if items == [] then None
    else match InputElementError(inner, items[0])
      case Some(c) =>
        assert FirstFailingElement(inner, items, 0);
        Some(c)
      case None =>
        var r := FirstElementError(inner, items[1..]);
        assert r.Some? ==> exists i :: FirstFailingElement(inner, items, i) && InputElementError(inner, items[i]) == r by {
          if r.Some? {
            var i :| FirstFailingElement(inner, items[1..], i) && InputElementError(inner, items[1..][i]) == r;
            assert items[i + 1] == items[1..][i];
            assert forall j :: 1 <= j < i + 1 ==> items[j] == items[1..][j - 1];
            assert FirstFailingElement(inner, items, i + 1);
          }
        }
        assert r.None? ==> forall i :: 0 <= i < |items| ==> InputElementError(inner, items[i]).None? by {
          if r.None? {
            assert forall i :: 1 <= i < |items| ==> items[i] == items[1..][i - 1];
          }
        }
        r
  }

  /// The element loop of BuildParamsBuffer for an array parameter.
  method CheckArrayElements(inner: PropKind, items: seq<Value>) returns (err: Option<ErrorCode>)
    ensures err == FirstElementError(inner, items)
  {
    var i := 0;
    while i < |items|
      invariant 0 <= i <= |items|
      invariant FirstElementError(inner, items) == FirstElementError(inner, items[i..])
    {
      assert items[i..][1..] == items[i + 1..];
      var e := InputElementError(inner, items[i]);
      if e.Some? {
        return e;
      }
      i := i + 1;
    }
    return None;
  }

  /// What BuildParamsBuffer does with one property.
  datatype InputStep =
    | Skipped                      // not a parameter, or a pure out-parameter
    | Missing                      // Failure(10, "Missing parameter: <name>"), then carry on
    | Stored(value: Value)         // written into the buffer
    | Aborted(error: ErrorCode)    // Failure(error), and the delegate is not invoked
    | Halted                       // Failure(7), yet the buffer counts as built

  /// The JSON value an array parameter is filled from: a non-array reads as empty.
  function ArrayItems(v: Value): seq<Value>
  {
    if v.JArray? then v.items else []
  }

  function InputStepOf(p: Property, params: map<string, Value>): (s: InputStep)
    ensures s.Skipped? <==> !IsInputParam(p)
    ensures s.Missing? <==> IsInputParam(p) && p.name !in params
    ensures s.Halted? <==> IsInputParam(p) && p.name in params && p.kind.OtherProp?
    ensures s.Aborted? ==> s.error == UnsupportedPropertyType || s.error == UnexpectedParameterType
    ensures IsInputParam(p) && p.name in params && IsScalarKind(p.kind) ==> s == Stored(params[p.name])
    ensures IsInputParam(p) && p.name in params && p.kind.StructProp? && IsJsonObjectWrapper(p.kind.structName) ==>
      if params[p.name].JObject? then s == Stored(params[p.name]) else s == Aborted(UnexpectedParameterType)
    ensures IsInputParam(p) && p.name in params && p.kind.ArrayProp? ==>
      (s.Aborted? <==> exists i :: 0 <= i < |ArrayItems(params[p.name])|
                         && InputElementError(p.kind.inner, ArrayItems(params[p.name])[i]).Some?)
  {
    if !IsInputParam(p) then Skipped
    else if p.name !in params then Missing
    else
      var v := params[p.name];
      match p.kind
      case BoolProp => Stored(v)
      case StrProp => Stored(v)
      case NumericProp(k) => if k == OtherNumeric then Aborted(UnsupportedPropertyType) else Stored(v)
      case StructProp(s) =>
        if !IsJsonObjectWrapper(s) then Aborted(UnsupportedPropertyType)
        else if !v.JObject? then Aborted(UnexpectedParameterType)
        else Stored(v)
      case ArrayProp(inner) =>
        (match FirstElementError(inner, ArrayItems(v))
         case Some(c) => Aborted(c)
         case None => Stored(JArray(ArrayItems(v))))
      case OtherProp => Halted
  }

  /// One parameter value written into the buffer.
  datatype Argument = Argument(name: string, value: Value)

  /// BuildParamsBuffer's result: its return value, what it wrote, and the failures it sent.
  datatype BuildOutcome = BuildOutcome(ok: bool, arguments: seq<Argument>, failures: seq<Reply>)

  /// BuildParamsBuffer over the property list, in declaration order.
  function BuildParams(props: seq<Property>, params: map<string, Value>): BuildOutcome
  {
    if props == [] then BuildOutcome(true, [], [])
    else match InputStepOf(props[0], params)
      case Skipped => BuildParams(props[1..], params)
      case Missing =>
        var r := BuildParams(props[1..], params);
        r.(failures := [MissingParameterFailure(props[0].name)] + r.failures)
      case Stored(v) =>
        var r := BuildParams(props[1..], params);
        r.(arguments := [Argument(props[0].name, v)] + r.arguments)
      case Aborted(e) => BuildOutcome(false, [], [FailureOf(e)])
      case Halted => BuildOutcome(true, [], [FailureOf(UnsupportedPropertyType)])
  }

  /// The outcome of a later part of the loop, after what the earlier part wrote and sent.
  function After(arguments: seq<Argument>, failures: seq<Reply>, o: BuildOutcome): BuildOutcome
  {
    BuildOutcome(o.ok, arguments + o.arguments, failures + o.failures)
  }

  /// One iteration's decision, with the array element loop run as a loop.
  method InputStepFor(p: Property, params: map<string, Value>) returns (s: InputStep)
    ensures s == InputStepOf(p, params)
  {
    if !IsInputParam(p) {
      return Skipped;
    }
    if p.name !in params {
      return Missing;
    }
    var v := params[p.name];
    if p.kind.ArrayProp? {
      var err := CheckArrayElements(p.kind.inner, ArrayItems(v));
      if err.Some? {
        return Aborted(err.value);
      }
      return Stored(JArray(ArrayItems(v)));
    }
    return InputStepOf(p, params);
  }

  /// One more iteration of the loop, after what the earlier ones wrote and sent.
  lemma BuildParamsStep(props: seq<Property>, params: map<string, Value>, i: nat,
                        arguments: seq<Argument>, failures: seq<Reply>)
    requires i < |props|
    ensures var rest := BuildParams(props[i + 1..], params);
      After(arguments, failures, BuildParams(props[i..], params)) ==
        match InputStepOf(props[i], params)
        case Skipped => After(arguments, failures, rest)
        case Missing => After(arguments, failures + [MissingParameterFailure(props[i].name)], rest)
        case Stored(v) => After(arguments + [Argument(props[i].name, v)], failures, rest)
        case Aborted(e) => BuildOutcome(false, arguments, failures + [FailureOf(e)])
        case Halted => BuildOutcome(true, arguments, failures + [FailureOf(UnsupportedPropertyType)])
  {
    assert props[i..][0] == props[i] && props[i..][1..] == props[i + 1..];
    var rest := BuildParams(props[i + 1..], params);
    match InputStepOf(props[i], params)
    case Skipped =>
    case Missing =>
      assert failures + ([MissingParameterFailure(props[i].name)] + rest.failures)
        == (failures + [MissingParameterFailure(props[i].name)]) + rest.failures;
    case Stored(v) =>
      assert arguments + ([Argument(props[i].name, v)] + rest.arguments)
        == (arguments + [Argument(props[i].name, v)]) + rest.arguments;
    case Aborted(e) =>
      assert arguments + [] == arguments;
    case Halted =>
      assert arguments + [] == arguments;
  }

  /// BuildParamsBuffer: walks the properties, writes each supplied input into the buffer,
  /// and reports through the callback what it cannot use.
  method BuildParamsBuffer(props: seq<Property>, params: map<string, Value>)
    returns (ok: bool, arguments: seq<Argument>, failures: seq<Reply>)
    ensures BuildOutcome(ok, arguments, failures) == BuildParams(props, params)
  {
    arguments, failures := [], [];
    var i := 0;
    while i < |props|
      invariant 0 <= i <= |props|
      invariant BuildParams(props, params) == After(arguments, failures, BuildParams(props[i..], params))
    {
      BuildParamsStep(props, params, i, arguments, failures);
      var p := props[i];
      var s := InputStepFor(p, params);
      match s {
        case Skipped =>
        case Missing =>
          failures := failures + [MissingParameterFailure(p.name)];
        case Stored(v) =>
          arguments := arguments + [Argument(p.name, v)];
        case Aborted(e) =>
          failures := failures + [FailureOf(e)];
          return false, arguments, failures;
        case Halted =>
          failures := failures + [FailureOf(UnsupportedPropertyType)];
          return true, arguments, failures;
      }
      i := i + 1;
    }
    return true, arguments, failures;
  }

  /// Properties that are not inputs play no part in marshalling.
  lemma {:induction false} BuildParamsIgnoresNonInputs(props: seq<Property>, params: map<string, Value>)
    ensures BuildParams(props, params) == BuildParams(InputParams(props), params)
  {
    if props != [] {
      BuildParamsIgnoresNonInputs(props[1..], params);
      if IsInputParam(props[0]) {
        assert InputParams(props)[1..] == InputParams(props[1..]);
      }
    }
  }

  /// The buffer is refused exactly when some property aborts before any property halts.
  /// Property i aborts and no earlier property halted the loop.
  predicate AbortsAt(props: seq<Property>, params: map<string, Value>, i: int)
  {
    0 <= i < |props| && InputStepOf(props[i], params).Aborted?
    && forall j :: 0 <= j < i ==> !InputStepOf(props[j], params).Halted?
  }

  lemma {:induction false} BuildFailsIffAborted(props: seq<Property>, params: map<string, Value>)
    ensures !BuildParams(props, params).ok <==> exists i :: AbortsAt(props, params, i)
  {
    if props != [] {
      BuildFailsIffAborted(props[1..], params);
      var s := InputStepOf(props[0], params);
      if s.Aborted? {
        assert AbortsAt(props, params, 0);
      } else if s.Halted? {
        forall i | 0 <= i < |props| ensures !AbortsAt(props, params, i) {
          if 0 < i { assert InputStepOf(props[0], params).Halted?; }
        }
      } else {
        if exists i :: AbortsAt(props, params, i) {
          var i :| AbortsAt(props, params, i);
          assert i > 0;
          assert props[1..][i - 1] == props[i];
          assert forall j :: 0 <= j < i - 1 ==> props[1..][j] == props[j + 1];
          assert AbortsAt(props[1..], params, i - 1);
        }
        if !BuildParams(props[1..], params).ok {
          var i :| AbortsAt(props[1..], params, i);
          assert props[i + 1] == props[1..][i];
          assert forall j :: 1 <= j < i + 1 ==> props[j] == props[1..][j - 1];
          assert AbortsAt(props, params, i + 1);
        }
      }
    }
  }

  /// The failures marshalling can send: a missing parameter (10), an unsupported property
  /// type (7) or an unexpected parameter type (9).
  predicate IsMarshallingFailure(r: Reply)
  {
    r == FailureOf(UnsupportedPropertyType) || r == FailureOf(UnexpectedParameterType)
    || (r.Failure? && r.code == Code(MissingParameter)
        && |MissingParameterPrefix| <= |r.message| && r.message[..|MissingParameterPrefix|] == MissingParameterPrefix)
  }

  lemma MissingIsMarshallingFailure(name: string)
    ensures IsMarshallingFailure(MissingParameterFailure(name))
  {
  }

  lemma {:induction false} BuildFailuresAreMarshallingFailures(props: seq<Property>, params: map<string, Value>)
    ensures forall k :: 0 <= k < |BuildParams(props, params).failures| ==>
      IsMarshallingFailure(BuildParams(props, params).failures[k])
  {
    if props != [] {
      var r := BuildParams(props[1..], params);
      var b := BuildParams(props, params);
      match InputStepOf(props[0], params)
      case Skipped =>
        assert b == r;
        BuildFailuresAreMarshallingFailures(props[1..], params);
      case Missing =>
        var f := MissingParameterFailure(props[0].name);
        assert b.failures == [f] + r.failures;
        assert IsMarshallingFailure(f) by { MissingIsMarshallingFailure(props[0].name); }
        BuildFailuresAreMarshallingFailures(props[1..], params);
      case Stored(_) =>
        assert b.failures == r.failures;
        BuildFailuresAreMarshallingFailures(props[1..], params);
      case Aborted(e) =>
        assert b.failures == [FailureOf(e)];
      case Halted =>
        assert b.failures == [FailureOf(UnsupportedPropertyType)];
    }
  }

  /// A refused buffer ends its failures with the type failure (7 or 9) that stopped it.
  lemma {:induction false} RefusedBuildEndsInTypeFailure(props: seq<Property>, params: map<string, Value>)
    ensures !BuildParams(props, params).ok ==>
      |BuildParams(props, params).failures| > 0
      && var last := BuildParams(props, params).failures[|BuildParams(props, params).failures| - 1];
         last == FailureOf(UnsupportedPropertyType) || last == FailureOf(UnexpectedParameterType)
  {
    if props != [] {
      var r := BuildParams(props[1..], params);
      var b := BuildParams(props, params);
      match InputStepOf(props[0], params)
      case Skipped =>
        assert b == r;
        RefusedBuildEndsInTypeFailure(props[1..], params);
      case Missing =>
        assert b.failures == [MissingParameterFailure(props[0].name)] + r.failures && b.ok == r.ok;
        RefusedBuildEndsInTypeFailure(props[1..], params);
      case Stored(_) =>
        assert b.failures == r.failures && b.ok == r.ok;
        RefusedBuildEndsInTypeFailure(props[1..], params);
      case Aborted(e) =>
        assert b.failures == [FailureOf(e)];
      case Halted =>
        assert b.ok;
    }
  }

  /// Type mismatches on booleans, numbers and strings only warn, and a missing parameter
  /// is reported and skipped: with such parameters alone the delegate always runs, every
  /// supplied value is stored as sent, and every input is either stored or reported.
  lemma {:induction false} ScalarParametersAlwaysBuild(props: seq<Property>, params: map<string, Value>)
    requires forall k :: 0 <= k < |props| ==> IsScalarKind(props[k].kind)
    ensures BuildParams(props, params).ok
    ensures |BuildParams(props, params).arguments| + |BuildParams(props, params).failures| == |InputParams(props)|
    ensures forall k :: 0 <= k < |BuildParams(props, params).arguments| ==>
      var a := BuildParams(props, params).arguments[k];
      a.name in params && a.value == params[a.name]
  {
    if props != [] {
      ScalarParametersAlwaysBuild(props[1..], params);
      var r := BuildParams(props[1..], params);
      var s := InputStepOf(props[0], params);
      if s.Stored? {
        var a := Argument(props[0].name, s.value);
        assert BuildParams(props, params).arguments == [a] + r.arguments;
        assert forall k :: 1 <= k < |[a] + r.arguments| ==> ([a] + r.arguments)[k] == r.arguments[k - 1];
      }
    }
  }

  // ---------------------------------------------------------------- output serialisation

  /// The value of a parameter the delegate did not write: the buffer is zeroed first, and a
  /// zeroed JsonObjectWrapper holds no object (JNull here).
  function ZeroValue(k: PropKind): Value
  {
    match k
    case BoolProp => JBool(false)
    case NumericProp(_) => JNumber(0)
    case StrProp => JString("")
    case ArrayProp(_) => JArray([])
    case _ => JNull
  }

  /// The value of an out-parameter after ProcessEvent; `results` is the engine's oracle.
  function OutValue(p: Property, results: map<string, Value>): Value
  {
    if p.name in results then results[p.name] else ZeroValue(p.kind)
  }

  /// The array-element loop of InvokeFunction over the elements in [0, |items|).
  /// Numeric elements of a kind that is neither floating point nor integer are dropped
  /// without a failure; a wrapper element without an object is invalid input (8).
  function OutputElements(inner: PropKind, items: seq<Value>): (r: Result<seq<Value>, ErrorCode>)
    ensures r.Ok? ==> |r.value| <= |items|
    ensures r.Err? ==> r.error == UnsupportedPropertyType || r.error == InvalidInput
    ensures IsScalarKind(inner) ==> r == Ok(items)
    decreases |items|
  {
    if items == [] then Ok([])
    else
      var prefix := OutputElements(inner, items[..|items| - 1]);
      var e := items[|items| - 1];
      assert items[..|items| - 1] + [e] == items;
      if prefix.Err? then prefix
      else match inner
        case BoolProp => Ok(prefix.value + [e])
        case StrProp => Ok(prefix.value + [e])
        case NumericProp(k) => if k == OtherNumeric then prefix else Ok(prefix.value + [e])
        case StructProp(s) =>
          if !IsJsonObjectWrapper(s) then Err(UnsupportedPropertyType)
          else if !e.JObject? then Err(InvalidInput)
          else Ok(prefix.value + [e])
        case _ => Err(UnsupportedPropertyType)
  }

  /// What InvokeFunction does with one property after the call.
  function OutputStepOf(p: Property, results: map<string, Value>): (r: Result<Option<Value>, ErrorCode>)
    ensures !IsPureOutParam(p) ==> r == Ok(None)
    ensures IsPureOutParam(p) && IsScalarKind(p.kind) ==> r == Ok(Some(OutValue(p, results)))
    ensures r.Err? ==> IsPureOutParam(p) && (r.error == UnsupportedPropertyType || r.error == InvalidInput)
    ensures IsPureOutParam(p) && r.Ok? ==> r.value.Some?
  {
    if !IsPureOutParam(p) then Ok(None)
    else
      var v := OutValue(p, results);
      match p.kind
      case BoolProp => Ok(Some(v))
      case StrProp => Ok(Some(v))
      case NumericProp(k) => if k == OtherNumeric then Err(UnsupportedPropertyType) else Ok(Some(v))
      case StructProp(s) =>
        if !IsJsonObjectWrapper(s) then Err(UnsupportedPropertyType)
        else if !v.JObject? then Err(InvalidInput)
        else Ok(Some(v))
      case ArrayProp(inner) =>
        (match OutputElements(inner, ArrayItems(v))
         case Err(c) => Err(c)
         case Ok(es) => Ok(Some(JArray(es))))
      case OtherProp => Err(UnsupportedPropertyType)
  }

  /// The output object after the loop has run over the properties in [0, |props|):
  /// the first failure stops it; a later field of the same name overwrites an earlier one.
  function Outputs(props: seq<Property>, results: map<string, Value>): Result<map<string, Value>, ErrorCode>
    decreases |props|
  {
    if props == [] then Ok(map[])
    else
      var prefix := Outputs(props[..|props| - 1], results);
      var p := props[|props| - 1];
      if prefix.Err? then prefix
      else match OutputStepOf(p, results)
        case Err(c) => Err(c)
        case Ok(None) => prefix
        case Ok(Some(v)) => Ok(prefix.value[p.name := v])
  }

  /// Once the element loop has failed, later elements do not change the outcome.
  lemma {:induction false} OutputElementsFailureSticks(inner: PropKind, items: seq<Value>, i: nat)
    requires i <= |items|
    requires OutputElements(inner, items[..i]).Err?
    ensures OutputElements(inner, items) == OutputElements(inner, items[..i])
    decreases |items| - i
  {
    if i < |items| {
      assert items[..i + 1][..i] == items[..i];
      OutputElementsFailureSticks(inner, items, i + 1);
    } else {
      assert items[..i] == items;
    }
  }

  /// The array-element loop of InvokeFunction.
  method SerializeArray(inner: PropKind, items: seq<Value>) returns (r: Result<seq<Value>, ErrorCode>)
    ensures r == OutputElements(inner, items)
  {
    var out: seq<Value> := [];
    var i := 0;
    while i < |items|
      invariant 0 <= i <= |items|
      invariant OutputElements(inner, items[..i]) == Ok(out)
    {
      assert items[..i + 1][..i] == items[..i];
      var e := items[i];
      match inner {
        case BoolProp => out := out + [e];
        case StrProp => out := out + [e];
        case NumericProp(k) =>
          if k != OtherNumeric {
            out := out + [e];
          }
        case StructProp(s) =>
          if !IsJsonObjectWrapper(s) {
            OutputElementsFailureSticks(inner, items, i + 1);
            return Err(UnsupportedPropertyType);
          }
          if !e.JObject? {
            OutputElementsFailureSticks(inner, items, i + 1);
            return Err(InvalidInput);
          }
          out := out + [e];
        case _ =>
          OutputElementsFailureSticks(inner, items, i + 1);
          return Err(UnsupportedPropertyType);
      }
      i := i + 1;
    }
    assert items[..i] == items;
    return Ok(out);
  }

  /// Once the output loop has failed, later properties do not change the outcome.
  lemma {:induction false} OutputsFailureSticks(props: seq<Property>, results: map<string, Value>, i: nat)
    requires i <= |props|
    requires Outputs(props[..i], results).Err?
    ensures Outputs(props, results) == Outputs(props[..i], results)
    decreases |props| - i
  {
    if i < |props| {
      assert props[..i + 1][..i] == props[..i];
      OutputsFailureSticks(props, results, i + 1);
    } else {
      assert props[..i] == props;
    }
  }

  /// The output loop of InvokeFunction: fills the JSON object field by field.
  method SerializeOutputs(props: seq<Property>, results: map<string, Value>)
    returns (r: Result<map<string, Value>, ErrorCode>)
    ensures r == Outputs(props, results)
  {
    var jsonOut: map<string, Value> := map[];
    var i := 0;
    while i < |props|
      invariant 0 <= i <= |props|
      invariant Outputs(props[..i], results) == Ok(jsonOut)
    {
      assert props[..i + 1][..i] == props[..i];
      var p := props[i];
      if IsPureOutParam(p) {
        var v := OutValue(p, results);
        var step: Result<Option<Value>, ErrorCode>;
        if p.kind.ArrayProp? {
          var es := SerializeArray(p.kind.inner, ArrayItems(v));
          step := if es.Err? then Err(es.error) else Ok(Some(JArray(es.value)));
        } else {
          step := OutputStepOf(p, results);
        }
        if step.Err? {
          OutputsFailureSticks(props, results, i + 1);
          return Err(step.error);
        }
        jsonOut := jsonOut[p.name := step.value.value];
      }
      i := i + 1;
    }
    assert props[..i] == props;
    return Ok(jsonOut);
  }

  /// Only pure out-parameters reach the output object.
  lemma {:induction false} OutputsOnlyFromPureOuts(props: seq<Property>, results: map<string, Value>)
    ensures Outputs(props, results).Ok? ==>
      Outputs(props, results).value.Keys == set k | 0 <= k < |props| && IsPureOutParam(props[k]) :: props[k].name
    decreases |props|
  {
    if props != [] {
      var init := props[..|props| - 1];
      OutputsOnlyFromPureOuts(init, results);
      var p := props[|props| - 1];
      assert forall k :: 0 <= k < |init| ==> init[k] == props[k];
      if Outputs(props, results).Ok? {
        var names := set k | 0 <= k < |props| && IsPureOutParam(props[k]) :: props[k].name;
        var initNames := set k | 0 <= k < |init| && IsPureOutParam(init[k]) :: init[k].name;
        if IsPureOutParam(p) {
          assert names == initNames + {p.name} by {
            forall n | n in names ensures n in initNames + {p.name} {
              var k :| 0 <= k < |props| && IsPureOutParam(props[k]) && props[k].name == n;
              if k < |init| { assert init[k] == props[k]; }
            }
            forall n | n in initNames + {p.name} ensures n in names {
              if n in initNames {
                var k :| 0 <= k < |init| && IsPureOutParam(init[k]) && init[k].name == n;
                assert props[k] == init[k];
              } else {
                assert props[|props| - 1] == p;
              }
            }
          }
        } else {
          assert names == initNames by {
            forall n | n in names ensures n in initNames {
              var k :| 0 <= k < |props| && IsPureOutParam(props[k]) && props[k].name == n;
              assert k < |init|;
              assert init[k] == props[k];
            }
          }
        }
      }
    }
  }

  /// The reply's keys are the names of PureOutParams: the parameters the output loop keeps
  /// are exactly the ones it serialises.
  lemma OutputKeysArePureOutNames(props: seq<Property>, results: map<string, Value>)
    ensures Outputs(props, results).Ok? ==>
      Outputs(props, results).value.Keys == set p | p in PureOutParams(props) :: p.name
  {
    OutputsOnlyFromPureOuts(props, results);
    var byIndex := set k | 0 <= k < |props| && IsPureOutParam(props[k]) :: props[k].name;
    var byParam := set p | p in PureOutParams(props) :: p.name;
    forall n | n in byIndex ensures n in byParam {
      var k :| 0 <= k < |props| && IsPureOutParam(props[k]) && props[k].name == n;
      assert props[k] in PureOutParams(props);
    }
    forall n | n in byParam ensures n in byIndex {
      var p :| p in PureOutParams(props) && p.name == n;
      var k :| 0 <= k < |props| && props[k] == p;
    }
    assert byIndex == byParam;
  }

  // ---------------------------------------------------------------- invocation

  /// The replies one query produces, and whether ProcessEvent ran.
  datatype Invocation = Invocation(replies: seq<Reply>, invoked: bool)

  /// InvokeFunction: unknown delegate (6); marshalling; the call; then the out-parameters.
  function FunctionInvocation(functions: seq<DelegateFunction>, name: string, params: map<string, Value>,
                              results: map<string, Value>): (inv: Invocation)
    ensures FindFunction(functions, name).None? ==> inv == Invocation([FailureOf(DelegateNotFound)], false)
    ensures FindFunction(functions, name).Some? ==>
      var b := BuildParams(FindFunction(functions, name).value.properties, params);
      |inv.replies| == (if b.ok then |b.failures| + 1 else |b.failures|)
      && inv.replies[..|b.failures|] == b.failures && inv.invoked == b.ok
  {
    match FindFunction(functions, name)
    case None => Invocation([FailureOf(DelegateNotFound)], false)
    case Some(f) =>
      var b := BuildParams(f.properties, params);
      if !b.ok then Invocation(b.failures, false)
      else match Outputs(f.properties, results)
        case Err(c) => Invocation(b.failures + [FailureOf(c)], true)
        case Ok(obj) => Invocation(b.failures + [Success(Payload(obj))], true)
  }

  /// InvokeEvent: as a function, but the reply after the call is an empty Success.
  function EventInvocation(functions: seq<DelegateFunction>, name: string, params: map<string, Value>): (inv: Invocation)
    ensures FindFunction(functions, name).None? ==> inv == Invocation([FailureOf(DelegateNotFound)], false)
    ensures FindFunction(functions, name).Some? ==>
      var b := BuildParams(FindFunction(functions, name).value.properties, params);
      inv.invoked == b.ok
      && inv.replies == if b.ok then b.failures + [Success(NoPayload)] else b.failures
  {
    match FindFunction(functions, name)
    case None => Invocation([FailureOf(DelegateNotFound)], false)
    case Some(f) =>
      var b := BuildParams(f.properties, params);
      Invocation(if b.ok then b.failures + [Success(NoPayload)] else b.failures, b.ok)
  }

  /// OnQuery: the checks, then the dispatch. Every path answers, so the query is always
  /// reported as handled.
  function Query(functions: seq<DelegateFunction>, request: Option<Value>, results: map<string, Value>): Invocation
  {
    match DecodeRequest(request)
    case Reject(e) => Invocation([FailureOf(e)], false)
    case Dispatch(FunctionDelegate, name, params) => FunctionInvocation(functions, name, params, results)
    case Dispatch(EventDelegate, name, params) => EventInvocation(functions, name, params)
  }

  /// InvokeFunction run as the source runs it: marshalling loop, call, output loop.
  method InvokeFunction(functions: seq<DelegateFunction>, name: string, params: map<string, Value>,
                        results: map<string, Value>) returns (replies: seq<Reply>, invoked: bool)
    ensures Invocation(replies, invoked) == FunctionInvocation(functions, name, params, results)
  {
    var f := FindFunction(functions, name);
    if f.None? {
      return [FailureOf(DelegateNotFound)], false;
    }
    var ok, _, failures := BuildParamsBuffer(f.value.properties, params);
    if !ok {
      return failures, false;
    }
    var out := SerializeOutputs(f.value.properties, results);
    if out.Err? {
      return failures + [FailureOf(out.error)], true;
    }
    return failures + [Success(Payload(out.value))], true;
  }

  /// InvokeEvent run as the source runs it.
  method InvokeEvent(functions: seq<DelegateFunction>, name: string, params: map<string, Value>)
    returns (replies: seq<Reply>, invoked: bool)
    ensures Invocation(replies, invoked) == EventInvocation(functions, name, params)
  {
    var f := FindFunction(functions, name);
    if f.None? {
      return [FailureOf(DelegateNotFound)], false;
    }
    var ok, _, failures := BuildParamsBuffer(f.value.properties, params);
    if !ok {
      return failures, false;
    }
    return failures + [Success(NoPayload)], true;
  }

  /// A rejected query gets exactly one reply, the failure of the first failing check, and
  /// nothing is invoked.
  lemma RejectedQueryAnswersOnce(functions: seq<DelegateFunction>, request: Option<Value>, results: map<string, Value>)
    requires DecodeRequest(request).Reject?
    ensures Query(functions, request, results).replies == [FailureOf(DecodeRequest(request).error)]
    ensures !Query(functions, request, results).invoked
    ensures 1 <= Query(functions, request, results).replies[0].code <= 5
  {
  }

  /// Every reply is a Success or a failure with a code of the protocol (1 to 10) whose
  /// message is that code's text, or the missing-parameter text naming the parameter.
  predicate IsProtocolReply(r: Reply)
  {
    r.Success?
    || (1 <= r.code <= 10
        && (r.message == ErrorMessage(CodeToError(r.code).value)
            || (r.code == 10 && |MissingParameterPrefix| <= |r.message|
                && r.message[..|MissingParameterPrefix|] == MissingParameterPrefix)))
  }

  lemma FailureOfIsProtocolReply(e: ErrorCode)
    requires e != Unknown
    ensures IsProtocolReply(FailureOf(e))
  {
  }

  predicate AllProtocolReplies(replies: seq<Reply>)
  {
    forall k :: 0 <= k < |replies| ==> IsProtocolReply(replies[k])
  }

  lemma AppendProtocolReply(replies: seq<Reply>, r: Reply)
    requires AllProtocolReplies(replies) && IsProtocolReply(r)
    ensures AllProtocolReplies(replies + [r])
  {
    assert forall k :: 0 <= k < |replies| ==> (replies + [r])[k] == replies[k];
  }

  /// The failures marshalling sends are protocol replies.
  lemma BuildRepliesFollowProtocol(props: seq<Property>, params: map<string, Value>)
    ensures AllProtocolReplies(BuildParams(props, params).failures)
  {
    BuildFailuresAreMarshallingFailures(props, params);
    FailureOfIsProtocolReply(UnsupportedPropertyType);
    FailureOfIsProtocolReply(UnexpectedParameterType);
  }

  lemma FunctionRepliesFollowProtocol(functions: seq<DelegateFunction>, name: string, params: map<string, Value>,
                                      results: map<string, Value>)
    ensures AllProtocolReplies(FunctionInvocation(functions, name, params, results).replies)
  {
    match FindFunction(functions, name)
    case None =>
      FailureOfIsProtocolReply(DelegateNotFound);
    case Some(f) =>
      var b := BuildParams(f.properties, params);
      BuildRepliesFollowProtocol(f.properties, params);
      if b.ok {
        match Outputs(f.properties, results)
        case Err(c) =>
          OutputsErrors(f.properties, results);
          FailureOfIsProtocolReply(c);
          AppendProtocolReply(b.failures, FailureOf(c));
        case Ok(obj) =>
          AppendProtocolReply(b.failures, Success(Payload(obj)));
      }
  }

  lemma EventRepliesFollowProtocol(functions: seq<DelegateFunction>, name: string, params: map<string, Value>)
    ensures AllProtocolReplies(EventInvocation(functions, name, params).replies)
  {
    match FindFunction(functions, name)
    case None =>
      FailureOfIsProtocolReply(DelegateNotFound);
    case Some(f) =>
      var b := BuildParams(f.properties, params);
      BuildRepliesFollowProtocol(f.properties, params);
      if b.ok {
        AppendProtocolReply(b.failures, Success(NoPayload));
      }
  }

  lemma {:induction false} QueryRepliesFollowProtocol(functions: seq<DelegateFunction>, request: Option<Value>,
                                                      results: map<string, Value>)
    ensures forall k :: 0 <= k < |Query(functions, request, results).replies| ==>
      IsProtocolReply(Query(functions, request, results).replies[k])
  {
    match DecodeRequest(request)
    case Reject(e) =>
      FailureOfIsProtocolReply(e);
    case Dispatch(FunctionDelegate, name, params) =>
      FunctionRepliesFollowProtocol(functions, name, params, results);
    case Dispatch(EventDelegate, name, params) =>
      EventRepliesFollowProtocol(functions, name, params);
  }

  lemma {:induction false} OutputsErrors(props: seq<Property>, results: map<string, Value>)
    ensures Outputs(props, results).Err? ==>
      Outputs(props, results).error == UnsupportedPropertyType || Outputs(props, results).error == InvalidInput
    decreases |props|
  {
    if props != [] {
      OutputsErrors(props[..|props| - 1], results);
    }
  }
}
