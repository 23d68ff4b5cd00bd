/**
 * What the C++ that generate_CLI_operations.py emits does when it runs: checkAPIResponse, the
 * query envelopes, a handle_<op>_operation function for an operation definition the generator
 * accepts, and the handleOperation dispatcher. The C++ expressions the generator pastes into
 * the code (argument values and regular calls) are evaluated by a parameter, and so is
 * executeQuery, the callback that sends a query to the bridge and returns its response.
 */
module GeneratedRuntime {
  import opened Wrappers
  import opened Json
  import opened Messages
  import opened StrUtil
  import opened OperationSpecs
  import opened TypeMapper
  import opened Generator
  import opened GeneratorProperties
  import ApiCall
  import Bridge

  /** What the generated code throws. */
  datatype Fault =
    | OperationFault(what: string)     // an OperationException
    | MessageFault(what: string)       // an InvalidMessageException
    | JsonTypeFault                    // a type_error from reading a JSON value as another type

  /**
   * Evaluates a pasted C++ expression, given msg and the variables bound so far; for a
   * regular call it yields the value as the declared variable holds it.
   */
  type Evaluator = (string, Json, map<string, Json>) -> Json

  /** executeQuery: the response of the bridge to a query. */
  type QueryExecutor = Json -> Json

  /** A run of generated code: its result and the queries it sent, in order. */
  datatype Run<T> = Run(outcome: Result<T, Fault>, queries: seq<Json>)

  // ---------------------------------------------------------------- checkAPIResponse

  const INVALID_RESPONSE_TEXT := "Got invalid " + "response from " + "Mumble-JSON-Bridge."
  const GENERIC_API_ERROR_TEXT := "Generic API error " + "ecountered"

  predicate IsErrorType(responseType: string) {
    responseType == "api_error" || responseType == "api_error_optional" || responseType == "error"
  }

  /**
   * checkAPIResponse: an api_call response passes; a response without response_type or
   * without response is invalid; the three error types throw their error_message; any other
   * type is a generic error. A response_type that is not a string cannot be read as one.
   */
  function CheckApiResponse(response: Json): (r: Outcome<Fault>)
    ensures r.Pass? <==> Contains(response, "response_type") && response.fields["response_type"] == Str("api_call")
    ensures !Contains(response, "response_type") ==> r == Fail(OperationFault(INVALID_RESPONSE_TEXT))
    ensures Contains(response, "response_type") && response.fields["response_type"].Str?
              && response.fields["response_type"].s != "api_call" && !Contains(response, "response")
            ==> r == Fail(OperationFault(INVALID_RESPONSE_TEXT))
    ensures Contains(response, "response_type") && response.fields["response_type"].Str?
              && IsErrorType(response.fields["response_type"].s) && Contains(response, "response")
              && Contains(response.fields["response"], "error_message")
              && response.fields["response"].fields["error_message"].Str?
            ==> r == Fail(OperationFault(response.fields["response"].fields["error_message"].s))
    ensures Contains(response, "response_type") && response.fields["response_type"].Str?
              && response.fields["response_type"].s != "api_call"
              && !IsErrorType(response.fields["response_type"].s) && Contains(response, "response")
            ==> r == Fail(OperationFault(GENERIC_API_ERROR_TEXT))
    ensures Contains(response, "response_type") && !response.fields["response_type"].Str?
            ==> r == Fail(JsonTypeFault)
    ensures Contains(response, "response_type") && response.fields["response_type"].Str?
              && IsErrorType(response.fields["response_type"].s) && Contains(response, "response")
              && !(Contains(response.fields["response"], "error_message")
                   && response.fields["response"].fields["error_message"].Str?)
            ==> r == Fail(JsonTypeFault)
    ensures r.Fail? ==> !r.error.MessageFault?
  {
    if Contains(response, "response_type") && !response.fields["response_type"].Str? then Fail(JsonTypeFault)
    else if Contains(response, "response_type") && response.fields["response_type"].s == "api_call" then Pass
    else if !Contains(response, "response_type") || !Contains(response, "response") then
      Fail(OperationFault(INVALID_RESPONSE_TEXT))
    else if IsErrorType(response.fields["response_type"].s) then
      var body := response.fields["response"];
      if Contains(body, "error_message") && body.fields["error_message"].Str? then
        Fail(OperationFault(body.fields["error_message"].s))
      else Fail(JsonTypeFault)
    else Fail(OperationFault(GENERIC_API_ERROR_TEXT))
  }

  /**
   * The bridge's own replies as checkAPIResponse sees them: an error reply throws the bridge's
   * error message, a disconnect reply (which has no response) is invalid and a registration
   * reply is a generic error.
   */
  lemma BridgeRepliesAsChecked(bridgeSecret: string, what: string, id: nat)
    requires id < 0x1_0000_0000
    ensures CheckApiResponse(Bridge.ErrorReply(bridgeSecret, what)) == Fail(OperationFault(what))
    ensures CheckApiResponse(Bridge.DisconnectReply(bridgeSecret)) == Fail(OperationFault(INVALID_RESPONSE_TEXT))
    ensures CheckApiResponse(Bridge.RegistrationReply(bridgeSecret, id)) == Fail(OperationFault(GENERIC_API_ERROR_TEXT))
  {
    var disconnect := Bridge.DisconnectReply(bridgeSecret);
    assert disconnect.fields.Keys == {"response_type", "secret"};
    assert "response" !in disconnect.fields;
  }

  // ---------------------------------------------------------------- query envelopes

  /** The value of every argument: its normalised C++ text, evaluated where the query is built. */
  function ArgumentValues(args: seq<ArgumentSpec>, evaluate: Evaluator, msg: Json, env: map<string, Json>)
    : (r: seq<(string, Json)>)
    requires ArgumentsAccepted(args)
    ensures |r| == |args|
    ensures forall i :: 0 <= i < |args| ==> r[i] == (args[i].name, evaluate(NormalisedValue(args[i].value).value, msg, env))
  {
    seq(|args|, i requires 0 <= i < |args| => (args[i].name, evaluate(NormalisedValue(args[i].value).value, msg, env)))
  }

  /** The JSON object the envelope's initializer list builds. */
  function BuildQuery(functionName: string, arguments: seq<(string, Json)>): (q: Json)
    ensures IsApiEnvelope(q)
    ensures q.Obj? && q.fields.Keys == {"message_type", "message"}
    ensures q.fields["message_type"] == Str("api_call")
    ensures var message := q.fields["message"];
            && message.Obj?
            && Contains(message, "function") && message.fields["function"] == Str(functionName)
            && (Contains(message, "parameter") <==> arguments != [])
            && (arguments != [] ==> message.fields["parameter"] == Obj(ObjectOf(arguments)))
  {
    var message :=
      if arguments == [] then map["function" := Str(functionName)]
      else map["function" := Str(functionName), "parameter" := Obj(ObjectOf(arguments))];
    Obj(map["message_type" := Str("api_call"), "message" := Obj(message)])
  }

  /** What every query of the generated code looks like: an api_call message naming a function. */
  predicate IsApiEnvelope(q: Json) {
    && Contains(q, "message_type") && q.fields["message_type"] == Str("api_call")
    && Contains(q, "message") && Contains(q.fields["message"], "function")
    && q.fields["message"].fields["function"].Str?
  }

  /** Every envelope has the bridge's basic format of an API call. */
  lemma EnvelopeHasApiCallFormat(q: Json)
    requires IsApiEnvelope(q)
    ensures ParseBasicFormat(q) == Success(API_CALL)
  {
    assert StringField(q, "message_type") == ToString(API_CALL);
    TypeStringRoundTrip(API_CALL);
  }

  /**
   * The bridge accepts an envelope's body exactly when it names a known function and carries
   * arguments wherever the function needs a parameter object.
   */
  lemma QueryBodyAcceptedIff(functions: ApiCall.ApiFunctions, functionName: string, arguments: seq<(string, Json)>)
    ensures ApiCall.ParseApiCall(functions, BuildQuery(functionName, arguments).fields["message"]).Success?
            <==> functionName in functions.all && (functionName !in functions.noParam ==> arguments != [])
  {
  }

  // ---------------------------------------------------------------- parameters

  function ArityText(operationName: string, expected: nat, provided: nat): string {
    "Operation \"" + operationName + "\" expects " + NatToString(expected)
    + " parameter, but was " + "provided with " + NatToString(provided)
  }

  /**
   * Whether get<cppType>() can read the value: strings and booleans only as themselves; an
   * int, which goes through nlohmann's generic arithmetic conversion, from any number or
   * boolean; a uint64_t or a double, nlohmann's own number_unsigned_t and number_float_t,
   * from numbers only (a boolean is a type error there).
   */
  predicate Converts(value: Json, cppType: string) {
    if cppType == "std::string" then value.Str?
    else if cppType == "bool" then value.Bool?
    else if cppType == "int" then value.Bool? || value.Int? || value.Unsigned? || value.Float?
    else value.Int? || value.Unsigned? || value.Float?
  }

  const INT32_LIMIT: int := 0x1_0000_0000
  const UINT64_LIMIT: int := 0x1_0000_0000_0000_0000

  /** The number get<>() reads from a boolean or a number before casting it: true is 1, false 0. */
  function NumericValue(value: Json): int
    requires value.Bool? || value.Int? || value.Unsigned? || value.Float?
  {
    match value
    case Bool(b) => if b then 1 else 0
    case Int(i) => i
    case Unsigned(n) => n
    case Float(whole) => whole
  }

  /** A cast to the 32-bit int: the value modulo 2^32, read as two's complement. */
  function ToInt32(i: int): (r: int)
    ensures -0x8000_0000 <= r < 0x8000_0000
    ensures (r - i) % INT32_LIMIT == 0
  {
    var m := (i + 0x8000_0000) % INT32_LIMIT;
    assert (m - (i + 0x8000_0000)) % INT32_LIMIT == 0 by {
      assert m - (i + 0x8000_0000) == -INT32_LIMIT * ((i + 0x8000_0000) / INT32_LIMIT);
    }
    m - 0x8000_0000
  }

  /**
   * get<cppType>() on a value it can read, as the variable of that C++ type then holds it:
   * strings and booleans as they are; numbers cast to int through 32-bit wrap-around, to
   * uint64_t through 64-bit wrap-around, and to double as they are.
   */
  function GetAs(value: Json, cppType: string): (r: Json)
    requires Converts(value, cppType)
    ensures cppType == "std::string" || cppType == "bool" ==> r == value
    ensures cppType == "int" ==> r.Int? && -0x8000_0000 <= r.i < 0x8000_0000
                                 && (r.i - NumericValue(value)) % INT32_LIMIT == 0
    ensures cppType == "uint64_t" ==> r.Unsigned? && r.n < UINT64_LIMIT
                                      && (r.n - NumericValue(value)) % UINT64_LIMIT == 0
    ensures cppType == "double" ==> r.Float? && r.whole == NumericValue(value)
  {
    if cppType == "std::string" || cppType == "bool" then value
    else if cppType == "int" then Int(ToInt32(NumericValue(value)))
    else if cppType == "uint64_t" then Unsigned(NumericValue(value) % UINT64_LIMIT)
    else Float(NumericValue(value))
  }

  /**
   * The casts change exactly the values that do not fit: an int variable holds a JSON
   * integer unchanged exactly when it lies in the 32-bit range, a uint64_t variable an
   * unsigned one exactly when it is below 2^64; booleans and floats always become numbers
   * of the target type.
   */
  lemma CastKeepsExactlyFittingValues(value: Json)
    requires value.Bool? || value.Int? || value.Unsigned? || value.Float?
    ensures GetAs(value, "int") == value <==> value.Int? && -0x8000_0000 <= value.i < 0x8000_0000
    ensures !value.Bool? ==> (GetAs(value, "uint64_t") == value <==> value.Unsigned? && value.n < UINT64_LIMIT)
  {
  }

  /**
   * A boolean is read only by get<bool>() and get<int>(); for every other type the
   * generator emits, get<>() of a boolean throws.
   */
  lemma BooleanReadOnlyAsBoolOrInt(b: bool, token: string)
    requires token in KindTable
    ensures Converts(Bool(b), KindTable[token]) <==> token == "boolean" || token == "number_integer"
  {
  }

  /** The JSON kind of a translatable type token. */
  function KindOf(token: string): (k: JsonKind)
    requires token in KindTable
    ensures KindOfToken(token) == Some(k)
  {
    TranslatableKindsAreJsonKinds(token);
    KindOfToken(token).value
  }

  /** The MESSAGE_ASSERT_FIELD before every extraction makes the typed get<>() safe. */
  lemma CheckedParameterConverts(value: Json, token: string)
    requires token in KindTable && HasKind(value, KindOf(token))
    ensures Converts(value, KindTable[token])
  {
  }

  /** The type guard and the typed get<>() of each parameter, in declaration order. */
  function BindEach(parameter: seq<ParameterSpec>, operationParams: Json, env: map<string, Json>)
    : Result<map<string, Json>, Fault>
    requires ValidParameters(parameter)
    decreases |parameter|
  {
    if parameter == [] then Success(env)
    else
      var p := parameter[0];
      var guard := AssertField(operationParams, p.name, KindOf(p.kind));
      if guard.Fail? then Failure(MessageFault(guard.error.what))
      else
        var value := operationParams.fields[p.name];
        if !Converts(value, KindTable[p.kind]) then Failure(JsonTypeFault)
        else BindEach(parameter[1..], operationParams, env[p.name := GetAs(value, KindTable[p.kind])])
  }

  /** The parameter part of a handler: an object "parameter" of the declared size, then each parameter. */
  function BindParameters(parameter: seq<ParameterSpec>, operationName: string, msg: Json)
    : Result<map<string, Json>, Fault>
    requires ValidParameters(parameter)
  {
    var guard := AssertField(msg, "parameter", KObject);
    if guard.Fail? then Failure(MessageFault(guard.error.what))
    else
      var operationParams := msg.fields["parameter"];
      if Size(operationParams) != |parameter| then
        Failure(MessageFault(ArityText(operationName, |parameter|, Size(operationParams))))
      else BindEach(parameter, operationParams, map[])
  }

  /** Every parameter is present with its type: the guards all pass. */
  predicate ParametersPresent(parameter: seq<ParameterSpec>, operationParams: Json)
    requires ValidParameters(parameter)
  {
    forall i :: 0 <= i < |parameter| ==>
      Contains(operationParams, parameter[i].name)
      && HasKind(operationParams.fields[parameter[i].name], KindOf(parameter[i].kind))
  }

  /** The names a parameter list declares. */
  function ParameterNames(parameter: seq<ParameterSpec>): set<string> {
    set i | 0 <= i < |parameter| :: parameter[i].name
  }

  /** The guards of a list pass exactly when the first one and those of the rest pass. */
  lemma ParametersPresentStep(parameter: seq<ParameterSpec>, operationParams: Json)
    requires ValidParameters(parameter) && parameter != []
    ensures ValidParameters(parameter[1..])
    ensures ParametersPresent(parameter, operationParams) <==>
              && Contains(operationParams, parameter[0].name)
              && HasKind(operationParams.fields[parameter[0].name], KindOf(parameter[0].kind))
              && ParametersPresent(parameter[1..], operationParams)
  {
    var rest := parameter[1..];
    assert forall i :: 0 <= i < |rest| ==> rest[i] == parameter[i + 1];
    if ParametersPresent(rest, operationParams) && Contains(operationParams, parameter[0].name)
       && HasKind(operationParams.fields[parameter[0].name], KindOf(parameter[0].kind)) {
      forall i | 0 <= i < |parameter|
        ensures Contains(operationParams, parameter[i].name)
                && HasKind(operationParams.fields[parameter[i].name], KindOf(parameter[i].kind))
      {
        if i > 0 {
          assert parameter[i] == rest[i - 1];
        }
      }
    }
  }

  lemma {:induction false} BindEachSucceedsIff(parameter: seq<ParameterSpec>, operationParams: Json, env: map<string, Json>)
    requires ValidParameters(parameter)
    ensures BindEach(parameter, operationParams, env).Success? <==> ParametersPresent(parameter, operationParams)
    decreases |parameter|
  {
    if parameter != [] {
      var p := parameter[0];
      ParametersPresentStep(parameter, operationParams);
      if Contains(operationParams, p.name) && HasKind(operationParams.fields[p.name], KindOf(p.kind)) {
        CheckedParameterConverts(operationParams.fields[p.name], p.kind);
        BindEachSucceedsIff(parameter[1..], operationParams,
                            env[p.name := GetAs(operationParams.fields[p.name], KindTable[p.kind])]);
      }
    }
  }

  lemma ParameterNamesStep(parameter: seq<ParameterSpec>)
    requires parameter != []
    ensures ParameterNames(parameter) == {parameter[0].name} + ParameterNames(parameter[1..])
  {
    var rest := parameter[1..];
    forall i | 0 <= i < |parameter|
      ensures parameter[i].name in {parameter[0].name} + ParameterNames(rest)
    {
      if i > 0 {
        assert parameter[i].name == rest[i - 1].name;
      }
    }
    forall i | 0 <= i < |rest|
      ensures rest[i].name in ParameterNames(parameter)
    {
      assert rest[i] == parameter[i + 1];
    }
  }

  /** The declaration at position i is the last one of its name: the one whose extraction the name keeps. */
  predicate LastOfItsName(parameter: seq<ParameterSpec>, i: nat)
    requires i < |parameter|
  {
    forall j :: i < j < |parameter| ==> parameter[j].name != parameter[i].name
  }

  /**
   * A successful binding maps every declared name to its member as get<>() converts it for
   * the type of the name's last declaration, and keeps every other variable.
   */
  lemma {:induction false} BindEachBinds(parameter: seq<ParameterSpec>, operationParams: Json, env: map<string, Json>)
    requires ValidParameters(parameter) && BindEach(parameter, operationParams, env).Success?
    ensures var bound := BindEach(parameter, operationParams, env).value;
            && bound.Keys == env.Keys + ParameterNames(parameter)
            && (forall i :: 0 <= i < |parameter| ==>
                  && parameter[i].name in bound && Contains(operationParams, parameter[i].name)
                  && Converts(operationParams.fields[parameter[i].name], KindTable[parameter[i].kind])
                  && (LastOfItsName(parameter, i) ==>
                        bound[parameter[i].name]
                        == GetAs(operationParams.fields[parameter[i].name], KindTable[parameter[i].kind])))
            && forall k :: k in env && k !in ParameterNames(parameter) ==> bound[k] == env[k]
    decreases |parameter|
  {
    if parameter != [] {
      var p := parameter[0];
      var rest := parameter[1..];
      var env' := env[p.name := GetAs(operationParams.fields[p.name], KindTable[p.kind])];
      assert ValidParameters(rest) by {
        assert forall i :: 0 <= i < |rest| ==> rest[i] == parameter[i + 1];
      }
      assert BindEach(parameter, operationParams, env) == BindEach(rest, operationParams, env');
      BindEachBinds(rest, operationParams, env');
      ParameterNamesStep(parameter);
      var bound := BindEach(rest, operationParams, env').value;
      forall i | 0 <= i < |parameter|
        ensures && parameter[i].name in bound && Contains(operationParams, parameter[i].name)
                && Converts(operationParams.fields[parameter[i].name], KindTable[parameter[i].kind])
                && (LastOfItsName(parameter, i) ==>
                      bound[parameter[i].name]
                      == GetAs(operationParams.fields[parameter[i].name], KindTable[parameter[i].kind]))
      {
        if i > 0 {
          assert parameter[i] == rest[i - 1];
          if LastOfItsName(parameter, i) {
            assert LastOfItsName(rest, i - 1) by {
              forall j | i - 1 < j < |rest|
                ensures rest[j].name != rest[i - 1].name
              {
                assert rest[j] == parameter[j + 1];
              }
            }
          }
        } else if LastOfItsName(parameter, 0) {
          assert p.name !in ParameterNames(rest) by {
            forall j | 0 <= j < |rest|
              ensures rest[j].name != p.name
            {
              assert rest[j] == parameter[j + 1];
            }
          }
        }
      }
    }
  }

  /**
   * For N declared parameters the handler needs a "parameter" object with exactly N members,
   * each present with its declared type; it then binds each name to its member.
   */
  lemma BindingSucceedsIff(parameter: seq<ParameterSpec>, operationName: string, msg: Json)
    requires ValidParameters(parameter)
    ensures BindParameters(parameter, operationName, msg).Success? <==>
              && AssertField(msg, "parameter", KObject).Pass?
              && Size(msg.fields["parameter"]) == |parameter|
              && ParametersPresent(parameter, msg.fields["parameter"])
    ensures BindParameters(parameter, operationName, msg).Success? ==>
              forall i :: 0 <= i < |parameter| ==>
                && parameter[i].name in BindParameters(parameter, operationName, msg).value
                && Contains(msg.fields["parameter"], parameter[i].name)
                && Converts(msg.fields["parameter"].fields[parameter[i].name], KindTable[parameter[i].kind])
                && (LastOfItsName(parameter, i) ==>
                      BindParameters(parameter, operationName, msg).value[parameter[i].name]
                      == GetAs(msg.fields["parameter"].fields[parameter[i].name], KindTable[parameter[i].kind]))
  {
    if AssertField(msg, "parameter", KObject).Pass? {
      BindEachSucceedsIff(parameter, msg.fields["parameter"], map[]);
      if BindParameters(parameter, operationName, msg).Success? {
        BindEachBinds(parameter, msg.fields["parameter"], map[]);
      }
    }
  }

  /** A "parameter" object of the wrong size is rejected before any member is looked at. */
  lemma ArityRejectedBeforeExtraction(parameter: seq<ParameterSpec>, operationName: string, msg: Json)
    requires ValidParameters(parameter)
    requires Contains(msg, "parameter") && msg.fields["parameter"].Obj?
    requires |msg.fields["parameter"].fields| != |parameter|
    ensures BindParameters(parameter, operationName, msg)
            == Failure(MessageFault(ArityText(operationName, |parameter|, |msg.fields["parameter"].fields|)))
  {
  }

  /** Parameters are checked in declaration order: the first one missing or mistyped is reported. */
  lemma {:induction false} FirstBadParameterReported(parameter: seq<ParameterSpec>, operationParams: Json,
                                                      env: map<string, Json>, k: nat)
    requires ValidParameters(parameter) && k < |parameter|
    requires forall j :: 0 <= j < k ==>
               Contains(operationParams, parameter[j].name)
               && HasKind(operationParams.fields[parameter[j].name], KindOf(parameter[j].kind))
    requires AssertField(operationParams, parameter[k].name, KindOf(parameter[k].kind)).Fail?
    ensures BindEach(parameter, operationParams, env)
            == Failure(MessageFault(AssertField(operationParams, parameter[k].name, KindOf(parameter[k].kind)).error.what))
    decreases k
  {
    if k > 0 {
      var p := parameter[0];
      var rest := parameter[1..];
      assert Contains(operationParams, p.name) && HasKind(operationParams.fields[p.name], KindOf(p.kind));
      CheckedParameterConverts(operationParams.fields[p.name], p.kind);
      assert forall j :: 0 <= j < |rest| ==> rest[j] == parameter[j + 1];
      FirstBadParameterReported(rest, operationParams,
                                env[p.name := GetAs(operationParams.fields[p.name], KindTable[p.kind])], k - 1);
    }
  }

  // ---------------------------------------------------------------- dependencies

  /** response<k>["response"]["return_value"] on a non-const object: absent members read as null. */
  function ReturnValue(response: Json): Option<Json> {
    var body := if Contains(response, "response") then response.fields["response"] else Null;
    if body.Null? then Some(Null)
    else if !body.Obj? then None
    else if "return_value" in body.fields then Some(body.fields["return_value"])
    else Some(Null)
  }

  /** The C++ call a regular dependency pastes, with its arguments joined by ", ". */
  function RegularCallText(f: FunctionSpec): string
    requires RegularArgumentsAccepted(f)
  {
    var args := ArgumentsOf(f);
    f.name + "(" + Join(seq(|args|, i requires 0 <= i < |args| => args[i].value.s), ", ") + ")"
  }

  /** The query of an api call, its arguments evaluated in the current scope. */
  function CallQuery(f: FunctionSpec, evaluate: Evaluator, msg: Json, env: map<string, Json>): Json
    requires ArgumentsAccepted(ArgumentsOf(f))
  {
    BuildQuery(f.name, ArgumentValues(ArgumentsOf(f), evaluate, msg, env))
  }

  /** One dependency: an api one queries, checks the response and binds its return value. */
  function RunDependency(d: DependencySpec, msg: Json, env: map<string, Json>,
                         evaluate: Evaluator, execute: QueryExecutor): (r: Run<map<string, Json>>)
    requires ValidAssignment(d.kind, d.call)
    ensures r.outcome.Failure? ==> !r.outcome.error.MessageFault?
    ensures |r.queries| == (if d.call.callType == "api" then 1 else 0)
    ensures forall q :: q in r.queries ==> IsApiEnvelope(q)
  {
    if d.call.callType == "api" then
      var query := CallQuery(d.call, evaluate, msg, env);
      var response := execute(query);
      match CheckApiResponse(response)
      case Fail(fault) => Run(Failure(fault), [query])
      case Pass =>
        var value := ReturnValue(response);
        if value.None? || !Converts(value.value, KindTable[d.kind]) then Run(Failure(JsonTypeFault), [query])
        else Run(Success(env[d.name := GetAs(value.value, KindTable[d.kind])]), [query])
    else
      Run(Success(env[d.name := evaluate(RegularCallText(d.call), msg, env)]), [])
  }

  function ApiDependencyCount(dependencies: seq<DependencySpec>): nat {
    if dependencies == [] then 0
    else (if dependencies[0].call.callType == "api" then 1 else 0) + ApiDependencyCount(dependencies[1..])
  }

  /**
   * The dependencies one after the other, each seeing the variables bound before it; the
   * first failure ends the run. Only api dependencies send queries, one each.
   */
  function RunDependencies(dependencies: seq<DependencySpec>, msg: Json, env: map<string, Json>,
                           evaluate: Evaluator, execute: QueryExecutor): (r: Run<map<string, Json>>)
    requires ValidDependencies(dependencies)
    ensures r.outcome.Failure? ==> !r.outcome.error.MessageFault?
    ensures |r.queries| <= ApiDependencyCount(dependencies)
    ensures r.outcome.Success? ==> |r.queries| == ApiDependencyCount(dependencies)
    ensures forall q :: q in r.queries ==> IsApiEnvelope(q)
    decreases |dependencies|
  {
    if dependencies == [] then Run(Success(env), [])
    else
      var step := RunDependency(dependencies[0], msg, env, evaluate, execute);
      if step.outcome.Failure? then Run(Failure(step.outcome.error), step.queries)
      else
        var rest := RunDependencies(dependencies[1..], msg, step.outcome.value, evaluate, execute);
        Run(rest.outcome, step.queries + rest.queries)
  }

  /** An api dependency is bound only from a response that passed checkAPIResponse. */
  lemma ApiDependencyBindsOnlyCheckedResponse(d: DependencySpec, msg: Json, env: map<string, Json>,
                                              evaluate: Evaluator, execute: QueryExecutor)
    requires ValidAssignment(d.kind, d.call) && d.call.callType == "api"
    ensures var query := CallQuery(d.call, evaluate, msg, env);
            var r := RunDependency(d, msg, env, evaluate, execute);
            && r.queries == [query]
            && (r.outcome.Success? <==> CheckApiResponse(execute(query)).Pass? && ReturnValue(execute(query)).Some?
                                        && Converts(ReturnValue(execute(query)).value, KindTable[d.kind]))
            && (CheckApiResponse(execute(query)).Fail? ==> r.outcome == Failure(CheckApiResponse(execute(query)).error))
            && (r.outcome.Success? ==> r.outcome.value == env[d.name := GetAs(ReturnValue(execute(query)).value, KindTable[d.kind])])
  {
  }

  /**
   * An api dependency declared number, number_float or number_unsigned whose checked
   * response returns a boolean fails with the type error get<double>() or get<uint64_t>() raises.
   */
  lemma BooleanReturnValueRejected(d: DependencySpec, msg: Json, env: map<string, Json>,
                                   evaluate: Evaluator, execute: QueryExecutor)
    requires ValidAssignment(d.kind, d.call) && d.call.callType == "api"
    requires d.kind in {"number", "number_float", "number_unsigned"}
    requires CheckApiResponse(execute(CallQuery(d.call, evaluate, msg, env))).Pass?
    requires ReturnValue(execute(CallQuery(d.call, evaluate, msg, env))).Some?
    requires ReturnValue(execute(CallQuery(d.call, evaluate, msg, env))).value.Bool?
    ensures RunDependency(d, msg, env, evaluate, execute).outcome == Failure(JsonTypeFault)
  {
  }

  lemma ValidDependenciesSplit(first: seq<DependencySpec>, second: seq<DependencySpec>)
    requires ValidDependencies(first) && ValidDependencies(second)
    ensures ValidDependencies(first + second)
    ensures first != [] ==> ValidDependencies(first[1..]) && (first + second)[0] == first[0]
                            && (first + second)[1..] == first[1..] + second
  {
    var both := first + second;
    assert forall i :: 0 <= i < |both| ==> both[i] == if i < |first| then first[i] else second[i - |first|];
    if first != [] {
      var tail := first[1..];
      assert forall i :: 0 <= i < |tail| ==> tail[i] == first[i + 1];
      assert both[1..] == tail + second;
    }
  }

  lemma QueriesAssoc(a: seq<Json>, b: seq<Json>, c: seq<Json>)
    ensures a + (b + c) == (a + b) + c
  {
  }

  /** A run of steps that thread the variables through, the first failure ending it. */
  function Thread<T>(items: seq<T>, env: map<string, Json>, step: (T, map<string, Json>) --> Run<map<string, Json>>)
    : Run<map<string, Json>>
    requires forall i, e :: 0 <= i < |items| ==> step.requires(items[i], e)
    decreases |items|
  {
    if items == [] then Run(Success(env), [])
    else
      var first := step(items[0], env);
      if first.outcome.Failure? then Run(Failure(first.outcome.error), first.queries)
      else
        var rest := Thread(items[1..], first.outcome.value, step);
        Run(rest.outcome, first.queries + rest.queries)
  }

  lemma {:induction false} ThreadInOrder<T>(first: seq<T>, second: seq<T>, env: map<string, Json>,
                                            step: (T, map<string, Json>) --> Run<map<string, Json>>)
    requires forall i, e :: 0 <= i < |first| ==> step.requires(first[i], e)
    requires forall i, e :: 0 <= i < |second| ==> step.requires(second[i], e)
    ensures forall i, e :: 0 <= i < |first + second| ==> step.requires((first + second)[i], e)
    ensures var whole := Thread(first + second, env, step);
            var front := Thread(first, env, step);
            if front.outcome.Failure? then whole == front
            else
              var back := Thread(second, front.outcome.value, step);
              whole == Run(back.outcome, front.queries + back.queries)
    decreases |first|
  {
    var both := first + second;
    assert forall i :: 0 <= i < |both| ==> both[i] == if i < |first| then first[i] else second[i - |first|];
    if first == [] {
      assert both == second;
    } else {
      assert both[1..] == first[1..] + second;
      var head := step(first[0], env);
      if head.outcome.Success? {
        var tail := first[1..];
        assert forall i :: 0 <= i < |tail| ==> tail[i] == first[i + 1];
        ThreadInOrder(tail, second, head.outcome.value, step);
        var middle := Thread(tail, head.outcome.value, step);
        if middle.outcome.Success? {
          var back := Thread(second, middle.outcome.value, step);
          QueriesAssoc(head.queries, middle.queries, back.queries);
        }
      }
    }
  }

  /** RunDependency as a step of a thread. */
  function DependencyStep(msg: Json, evaluate: Evaluator, execute: QueryExecutor)
    : (DependencySpec, map<string, Json>) --> Run<map<string, Json>>
  {
    (d: DependencySpec, env: map<string, Json>) requires ValidAssignment(d.kind, d.call) =>
      RunDependency(d, msg, env, evaluate, execute)
  }

  lemma {:induction false} DependenciesThread(dependencies: seq<DependencySpec>, msg: Json, env: map<string, Json>,
                                              evaluate: Evaluator, execute: QueryExecutor)
    requires ValidDependencies(dependencies)
    ensures forall i, e :: 0 <= i < |dependencies| ==> DependencyStep(msg, evaluate, execute).requires(dependencies[i], e)
    ensures RunDependencies(dependencies, msg, env, evaluate, execute)
            == Thread(dependencies, env, DependencyStep(msg, evaluate, execute))
    decreases |dependencies|
  {
    if dependencies != [] {
      var tail := dependencies[1..];
      assert forall i :: 0 <= i < |tail| ==> tail[i] == dependencies[i + 1];
      var head := RunDependency(dependencies[0], msg, env, evaluate, execute);
      if head.outcome.Success? {
        DependenciesThread(tail, msg, head.outcome.value, evaluate, execute);
      }
    }
  }

  /** Dependencies are resolved strictly in list order: a list runs as its first part, then the rest. */
  lemma DependenciesRunInOrder(first: seq<DependencySpec>, second: seq<DependencySpec>, msg: Json,
                               env: map<string, Json>, evaluate: Evaluator, execute: QueryExecutor)
    requires ValidDependencies(first) && ValidDependencies(second)
    ensures ValidDependencies(first + second)
    ensures var whole := RunDependencies(first + second, msg, env, evaluate, execute);
            var front := RunDependencies(first, msg, env, evaluate, execute);
            if front.outcome.Failure? then whole == front
            else
              var back := RunDependencies(second, msg, front.outcome.value, evaluate, execute);
              whole == Run(back.outcome, front.queries + back.queries)
  {
    ValidDependenciesSplit(first, second);
    var step := DependencyStep(msg, evaluate, execute);
    DependenciesThread(first + second, msg, env, evaluate, execute);
    DependenciesThread(first, msg, env, evaluate, execute);
    ThreadInOrder(first, second, env, step);
    var front := RunDependencies(first, msg, env, evaluate, execute);
    if front.outcome.Success? {
      DependenciesThread(second, msg, front.outcome.value, evaluate, execute);
    }
  }

  // ---------------------------------------------------------------- handlers

  /** The variables a handler binds before its dependencies: its parameters, or none. */
  function HandlerBinding(op: OperationSpec, msg: Json): Result<map<string, Json>, Fault>
    requires ValidOperation(op)
  {
    if op.parameter.Some? then BindParameters(op.parameter.value, op.operation, msg) else Success(map[])
  }

  /** The dependency part of a handler, after a successful binding. */
  function HandlerDependencies(op: OperationSpec, msg: Json, env: map<string, Json>,
                               evaluate: Evaluator, execute: QueryExecutor): (r: Run<map<string, Json>>)
    requires ValidOperation(op)
    ensures r.outcome.Failure? ==> !r.outcome.error.MessageFault?
    ensures forall q :: q in r.queries ==> IsApiEnvelope(q)
  {
    if op.depends.Some? then RunDependencies(op.depends.value, msg, env, evaluate, execute) else Run(Success(env), [])
  }

  /**
   * handle_<op>_operation: parameters, then dependencies, then the execute query, whose
   * response is the handler's result without any check.
   */
  function RunHandler(op: OperationSpec, msg: Json, evaluate: Evaluator, execute: QueryExecutor): (r: Run<Json>)
    requires ValidOperation(op)
    ensures forall q :: q in r.queries ==> IsApiEnvelope(q)
  {
    var bound := HandlerBinding(op, msg);
    if bound.Failure? then Run(Failure(bound.error), [])
    else
      var deps := HandlerDependencies(op, msg, bound.value, evaluate, execute);
      if deps.outcome.Failure? then Run(Failure(deps.outcome.error), deps.queries)
      else
        var query := CallQuery(op.executes.call.value, evaluate, msg, deps.outcome.value);
        Run(Success(execute(query)), deps.queries + [query])
  }

  /**
   * Once parameters and dependencies succeed, the handler succeeds with the response to its
   * last query, the execute query, whatever that response says: it is never checked.
   */
  lemma HandlerReturnsLastResponse(op: OperationSpec, msg: Json, evaluate: Evaluator, execute: QueryExecutor)
    requires ValidOperation(op)
    ensures var r := RunHandler(op, msg, evaluate, execute);
            && (r.outcome.Success? <==> HandlerBinding(op, msg).Success?
                                        && HandlerDependencies(op, msg, HandlerBinding(op, msg).value, evaluate, execute).outcome.Success?)
            && (r.outcome.Success? ==> r.queries != [] && r.outcome.value == execute(r.queries[|r.queries| - 1]))
            && (r.outcome.Success? && op.depends.Some? ==> |r.queries| == ApiDependencyCount(op.depends.value) + 1)
  {
  }

  /**
   * An operation without parameters never rejects the message on their account: the guard
   * constructs its exception without throwing it, so only the queries can fail (and, outside
   * the model, a pasted expression that throws).
   */
  lemma ZeroParameterHandlerNeverRejectsMessage(op: OperationSpec, msg: Json, evaluate: Evaluator, execute: QueryExecutor)
    requires ValidOperation(op) && op.parameter.None?
    ensures RunHandler(op, msg, evaluate, execute).outcome.Failure?
            ==> !RunHandler(op, msg, evaluate, execute).outcome.error.MessageFault?
  {
  }

  // ---------------------------------------------------------------- the dispatcher

  const MISSING_OPERATION_TEXT := "Missing \"operation\" " + "field " + "(required to be of " + "type string)"

  function UnknownOperationText(name: string): string {
    "Unknown operation \"" + name + "\""
  }

  /** The position of the first name that equals the given one. */
  function FirstIndexOf(names: seq<string>, name: string): (r: Option<nat>)
    ensures r.Some? ==> r.value < |names| && names[r.value] == name
                        && forall j :: 0 <= j < r.value ==> names[j] != name
    ensures r.None? ==> forall j :: 0 <= j < |names| ==> names[j] != name
  {
    if names == [] then None
    else if names[0] == name then Some(0)
    else
      var rest := FirstIndexOf(names[1..], name);
      if rest.None? then None else Some(rest.value + 1)
  }

  /** handleOperation: a string "operation" is compared with the names in load order, the first equal one runs. */
  function HandleOperation(ops: seq<OperationSpec>, msg: Json, evaluate: Evaluator, execute: QueryExecutor): (r: Run<Json>)
    requires forall i :: 0 <= i < |ops| ==> ValidOperation(ops[i])
    ensures !(Contains(msg, "operation") && msg.fields["operation"].Str?)
            ==> r == Run(Failure(OperationFault(MISSING_OPERATION_TEXT)), [])
    ensures forall q :: q in r.queries ==> IsApiEnvelope(q)
  {
    if !Contains(msg, "operation") || !msg.fields["operation"].Str? then
      Run(Failure(OperationFault(MISSING_OPERATION_TEXT)), [])
    else
      var name := msg.fields["operation"].s;
      var i := FirstIndexOf(Names(ops), name);
      if i.None? then Run(Failure(OperationFault(UnknownOperationText(name))), [])
      else RunHandler(ops[i.value], msg, evaluate, execute)
  }

  /**
   * The first operation loaded under the requested name is the one that runs. Operations
   * sharing a name define the same handle_<op>_operation twice, a file the C++ compiler
   * refuses; DispatchRunsNamedOperation states the case of a file that compiles.
   */
  lemma DispatchRunsFirstMatch(ops: seq<OperationSpec>, msg: Json, evaluate: Evaluator, execute: QueryExecutor, k: nat)
    requires forall i :: 0 <= i < |ops| ==> ValidOperation(ops[i])
    requires k < |ops| && Contains(msg, "operation") && msg.fields["operation"] == Str(ops[k].operation)
    requires forall j :: 0 <= j < k ==> ops[j].operation != ops[k].operation
    ensures HandleOperation(ops, msg, evaluate, execute) == RunHandler(ops[k], msg, evaluate, execute)
  {
    var names := Names(ops);
    assert forall j :: 0 <= j < |names| ==> names[j] == ops[j].operation;
  }

  /** Each handler function is defined once: no two operations share a name. */
  predicate DistinctNames(ops: seq<OperationSpec>) {
    forall i, j :: 0 <= i < j < |ops| ==> ops[i].operation != ops[j].operation
  }

  /** In a generated file that compiles, a request runs exactly the operation it names. */
  lemma DispatchRunsNamedOperation(ops: seq<OperationSpec>, msg: Json, evaluate: Evaluator, execute: QueryExecutor, k: nat)
    requires forall i :: 0 <= i < |ops| ==> ValidOperation(ops[i])
    requires DistinctNames(ops)
    requires k < |ops| && Contains(msg, "operation") && msg.fields["operation"] == Str(ops[k].operation)
    ensures HandleOperation(ops, msg, evaluate, execute) == RunHandler(ops[k], msg, evaluate, execute)
  {
    DispatchRunsFirstMatch(ops, msg, evaluate, execute, k);
  }

  /** A name no operation has is rejected, naming it, without any query. */
  lemma UnknownOperationRejected(ops: seq<OperationSpec>, msg: Json, evaluate: Evaluator, execute: QueryExecutor)
    requires forall i :: 0 <= i < |ops| ==> ValidOperation(ops[i])
    requires Contains(msg, "operation") && msg.fields["operation"].Str?
    requires forall i :: 0 <= i < |ops| ==> ops[i].operation != msg.fields["operation"].s
    ensures HandleOperation(ops, msg, evaluate, execute)
            == Run(Failure(OperationFault(UnknownOperationText(msg.fields["operation"].s))), [])
  {
    var names := Names(ops);
    assert forall j :: 0 <= j < |names| ==> names[j] == ops[j].operation;
  }
}
