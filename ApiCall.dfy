/**
 * APICall.cpp: validation of an API-call request body against the sets of known functions,
 * delegation of the call to the per-function implementations, and the conversion of the
 * API's arrays to JSON.
 */
module ApiCall {
  import opened Wrappers
  import opened Json
  import opened Messages

  /** s_allFunctions and s_noParamFunctions, the function tables of APICall_handleImpl.cpp. */
  datatype ApiFunctions = ApiFunctions(all: set<string>, noParam: set<string>)

  /**
   * The free function execute(functionName, api, bridgeSecret, msg) of APICall_handleImpl.cpp,
   * which calls into Mumble and builds the response.
   */
  type Executor = (string, string, Json) -> Json

  /** What the bridge knows of the Mumble API: which functions exist and how to run one. */
  datatype MumbleApi = MumbleApi(functions: ApiFunctions, execute: Executor)

  /** A validated API-call request: m_functionName and the request body m_msg. */
  datatype ApiCall = ApiCall(functionName: string, body: Json) {
    /** Message::getType() of every APICall. */
    function Type(): MessageType {
      API_CALL
    }
  }

  function UnknownFunctionText(name: string): string {
    "Unknown API function \"" + name + "\""
  }

  /**
   * The APICall constructor: the body needs a string "function" naming a known function, and
   * a "parameter" object unless the function is one that takes no parameter.
   */
  function ParseApiCall(functions: ApiFunctions, body: Json): (r: Result<ApiCall, InvalidMessage>)
    ensures r.Success? <==>
              && AssertField(body, "function", KString).Pass?
              && StringField(body, "function") in functions.all
              && (StringField(body, "function") !in functions.noParam
                  ==> AssertField(body, "parameter", KObject).Pass?)
    ensures AssertField(body, "function", KString).Fail?
            ==> r == Failure(AssertField(body, "function", KString).error)
    ensures AssertField(body, "function", KString).Pass? && StringField(body, "function") !in functions.all
            ==> r == Failure(InvalidMessage(UnknownFunctionText(StringField(body, "function"))))
    ensures AssertField(body, "function", KString).Pass? && StringField(body, "function") in functions.all
              && StringField(body, "function") !in functions.noParam && AssertField(body, "parameter", KObject).Fail?
            ==> r == Failure(AssertField(body, "parameter", KObject).error)
    ensures r.Success? ==> r.value.functionName == StringField(body, "function")
                           && r.value.body == body && r.value.Type() == API_CALL
  {
    var check := AssertField(body, "function", KString);
    if check.Fail? then Failure(check.error)
    else
      var name := StringField(body, "function");
      if name !in functions.all then Failure(InvalidMessage(UnknownFunctionText(name)))
      else if name !in functions.noParam && AssertField(body, "parameter", KObject).Fail? then
        Failure(AssertField(body, "parameter", KObject).error)
      else Success(ApiCall(name, body))
  }

  /** APICall::execute: hands the stored name and body, with the bridge's secret, to the API. */
  function Execute(call: ApiCall, api: MumbleApi, bridgeSecret: string): Json {
    api.execute(call.functionName, bridgeSecret, call.body)
  }

  /**
   * to_json(json, MumbleArray): copies the elements one by one into a vector, which then
   * becomes a JSON array of the converted elements, in the same order.
   */
  method ArrayToJson<T>(source: array<T>, convert: T -> Json) returns (j: Json)
    ensures j.Arr? && |j.elems| == source.Length
    ensures forall i :: 0 <= i < source.Length ==> j.elems[i] == convert(source[i])
  {
    var vec: seq<T> := [];
    for i := 0 to source.Length
      invariant vec == source[..i]
    {
      vec := vec + [source[i]];
    }
    j := Arr(seq(|vec|, k requires 0 <= k < |vec| => convert(vec[k])));
  }
}
