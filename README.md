# Mumble JSON bridge: a verified model of its core

The Mumble JSON bridge lets programs outside Mumble drive the Mumble plugin API by exchanging
JSON messages over named pipes. This project models four parts of it in Dafny and proves what
they promise.

- **Message validation in the bridge library.**
  - `Messages`: the `MESSAGE_ASSERT_FIELD` guard, the three message types with their string
    forms, and `parseBasicFormat`.
  - `Registration`: the constructor that validates a registration body.
  - `ApiCall`: the constructor that validates an API-call body, its delegation to the API, and
    the array-to-JSON copy.
- **The bridge's client registry.**
  - `BridgeClient`: one registered client.
  - `Bridge`: a class whose fields are the registry map and an outbox of everything written
    to client pipes. The ID counter `s_nextClientID` is a static variable of the source, one
    for the whole process, so it is an object of its own that every bridge is given and
    shares. The methods are `processMessage`, `handleRegistration`, `handleAPICall` and
    `handleDisconnect`.
  - `BridgeProperties`: what every step and every run of messages keeps.
- **The code generator `generate_CLI_operations.py`.**
  - `OperationSpecs`: the operation definitions, as YAML loads them.
  - `TypeMapper`: `jsonTypeToCppType`.
  - `Generator`: the emitters, as methods whose loops build the C++ text. Each is proved
    equal to a specification function.
  - `GeneratorProperties`: exactly which definitions the emitters accept, and which error
    each rejected one raises, among definitions that have every key the script reads and a
    string wherever it concatenates a name.
- **What the generated code and the CLI do at run time.**
  - `GeneratedRuntime`: an interpreter of an operation definition over a JSON request. It
    does what the emitted `checkAPIResponse`, `handle_<op>_operation` and `handleOperation`
    do.
  - `JsonInstruction`: the CLI's routing on `message_type`.

Supporting modules:
- `Wrappers`: Result, Option and Outcome.
- `StrUtil`: decimal rendering, Python's `strip`, joining and trimming, boost's `iequals`.
- `Json`: JSON as nlohmann holds it, reduced to type tags, strings, integers, arrays and
  objects.

How the source's semantics are represented:
- Writes to pipes become entries of the outbox.
- Whether a registering client's named pipe exists is a boolean parameter.
- The Mumble API, the function tables of the API implementation, `JSONInterface::process`,
  and the evaluation of the C++ expressions that operation definitions paste into the
  generated code are all parameters.
- The client ID type `client_id_t` is 32 bits wide. The counter wraps around explicitly.
  `get<client_id_t>()` truncates modulo 2^32 and reads `true` as 1 and `false` as 0; on a value
  that is neither a number nor a boolean it throws a type error that escapes `processMessage`.

Where the code and its documentation differ, the model follows the code. Three cases:
- A `false` argument value is falsy, so the generator turns it into `""`, never into `false`.
- A regular call whose definition has no `parameter` key is left without its closing `)`.
- A regular call with an empty `parameter` list loses the last character of its function
  name to the trimming of a separator that was never appended.

## Model

| member | source | states |
|---|---|---|
| Messages.AssertField | json_bridge/include/mumble/json_bridge/messages/Message.h:14-22 | passes exactly when the field is present and has the type; an absent field is reported as "does not specify" whatever type was asked for; a present field of the wrong type is reported as "expected to be of type" |
| Messages.AssertFieldErrorNamesField | json_bridge/include/mumble/json_bridge/messages/Message.h:14-22 | every rejection names the field; the type is named when the field is present; the text starts with "The given" exactly when the field is absent |
| Messages.MissingFieldTextNamesField | json_bridge/include/mumble/json_bridge/messages/Message.h:15-17 | the absent-field text contains the field's name and starts with "The given" |
| Messages.WrongTypeTextNamesField | json_bridge/include/mumble/json_bridge/messages/Message.h:19-21 | the wrong-type text contains the field's name and the type's token and does not start with "The given" |
| Json.KindOfToken | json_bridge/include/mumble/json_bridge/messages/Message.h:19 | a type token names the nlohmann predicate whose token it is |
| Messages.TypeFromString | json_bridge/src/messages/Message.cpp:28-37 | a success is a case-insensitive match of the type's name; failure exactly when the string matches no type, with the invalid_argument text |
| Messages.TypeFromStringIgnoresCase | json_bridge/src/messages/Message.cpp:28-34 | two spellings that differ only in letter case parse to the same result |
| Messages.TypeStringRoundTrip | json_bridge/src/messages/Message.cpp:14-34 | parsing the string form of each of the three types gives that type back, "Registration" included |
| Messages.ParseBasicFormat | json_bridge/src/messages/Message.cpp:40-61 | a non-object is rejected first; then a string message_type is required; an unknown type is reported by name; success exactly when the type is known and, unless it is DISCONNECT, an object "message" is present; a success returns the parsed type |
| Registration.ParseRegistration | json_bridge/src/messages/Registration.cpp:12-18 | succeeds exactly when pipe_path and secret are strings; pipe_path is checked first; the fields hold the message's strings |
| Registration.MissingBothReportsPipePath | json_bridge/src/messages/Registration.cpp:13-14 | a body without both fields is reported for pipe_path |
| ApiCall.ParseApiCall | json_bridge/src/messages/APICall.cpp:27-40 | succeeds exactly when "function" is a string naming a known function and a "parameter" object is present unless the function takes none; the errors in order: the "function" guard, the unknown function by name, then the "parameter" guard for a function that takes parameters; the call stores the name and body and has type API_CALL |
| ApiCall.ArrayToJson | json_bridge/src/messages/APICall.cpp:9-18 | the JSON array has the source array's length and the converted elements in the same order |
| BridgeClient.ClientAccessors | json_bridge/src/BridgeClient.cpp:11-24 | the getters return the constructor's arguments; secretMatches holds exactly for the stored secret; a client is valid exactly when its ID is not INVALID_CLIENT_ID |
| BridgeClient.ClientsWithoutIdAreInvalid | json_bridge/include/mumble/json_bridge/BridgeClient.h:40-67 | a default client and a client built without an ID are invalid |
| Bridge.ClientIdOf | json_bridge/src/Bridge.cpp:107 | get<client_id_t>() reads exactly numbers and booleans; an integer becomes its residue modulo 2^32, so one in range keeps its value; a boolean becomes 1 or 0 |
| Bridge.Classify | json_bridge/src/Bridge.cpp:98-142 | an API call or a disconnect is dispatched only for a registered client |
| Bridge.Bridge.constructor | json_bridge/src/Bridge.cpp:33-36 | a new bridge has no clients and has written nothing; it uses the process's counter as earlier bridges left it |
| Bridge.ClientIdCounter.constructor | json_bridge/src/Bridge.cpp:33 | the process-wide counter starts at 0 |
| Bridge.Bridge.ProcessMessage | json_bridge/src/Bridge.cpp:91-164 | the new registry, counter and outbox agree with the step function, and so does whether an exception escaped |
| Bridge.Bridge.HandleRegistration | json_bridge/src/Bridge.cpp:166-191 | when the pipe exists, the counter's ID is given to the new client and the counter moves on; otherwise nothing changes |
| Bridge.Bridge.HandleApiCall | json_bridge/src/Bridge.cpp:193-197 | the API's response to the call, made with the bridge secret, is written to the client's pipe, and nothing else changes |
| Bridge.Bridge.HandleDisconnect | json_bridge/src/Bridge.cpp:199-214 | the client is removed and a disconnect reply goes to its pipe |
| Bridge.Bridge.ReportError | json_bridge/src/Bridge.cpp:143-162 | a signed error reply is written only to a registered client with a valid ID |
| BridgeProperties.StartedBridgeIsConsistent | json_bridge/src/Bridge.cpp:33-36 | a new bridge's empty registry is consistent whatever the shared counter holds |
| BridgeProperties.ConsecutiveBridgesShareIds | json_bridge/include/mumble/json_bridge/Bridge.h:66 | two bridges constructed one after the other in one process give their first clients the IDs 0 and 1, from the one counter |
| BridgeProperties.StepKeepsRegistry | json_bridge/src/Bridge.cpp:91-214 | below the wrap-around, one message keeps the registry consistent; it adds at most the counter's ID and never replaces a stored client; the counter moves by at most one; the outbox grows by at most one write |
| BridgeProperties.RegistrationGivesFreshId | json_bridge/src/Bridge.cpp:166-191 | a registration whose pipe exists gets an ID no client holds, with its own path and secret; the counter becomes that ID plus one; a signed registration reply carrying the ID goes to the new pipe |
| BridgeProperties.RegistrationWithoutPipeChangesNothing | json_bridge/src/Bridge.cpp:170-190 | without the pipe, registration changes neither the registry, the counter nor the outbox |
| BridgeProperties.RegistrationAtLimitWrapsAround | json_bridge/src/Bridge.cpp:171-174 | at INVALID_CLIENT_ID the registration stores an invalid client and the counter wraps to 0 |
| BridgeProperties.RunKeepsRegistry | json_bridge/src/Bridge.cpp:171-174 | over any run that does not reach the wrap-around, IDs are unique and never reused, stored clients are never replaced, the counter never decreases, and writes are never lost |
| BridgeProperties.AuthenticationOrder | json_bridge/src/Bridge.cpp:114-130 | non-registration messages are checked for an integer client_id, then a string secret, then a registered client, then a matching secret; each failure has its own error, charged to the ID read; dispatch happens exactly when all four checks pass |
| BridgeProperties.ApiCallReachesApi | json_bridge/src/Bridge.cpp:193-197 | an authenticated call reaches the API with the bridge secret; its answer goes unchanged to the caller's pipe; the registry is untouched |
| BridgeProperties.DisconnectRemovesClient | json_bridge/src/Bridge.cpp:199-214 | disconnect removes exactly the sender; it gets a signed disconnect reply without a response body; the counter is untouched |
| BridgeProperties.UnknownSenderGetsNoReply | json_bridge/src/Bridge.cpp:143-162 | a message that is not a registration and names no registered client leaves the state unchanged |
| BridgeProperties.SilenceAfterDisconnect | json_bridge/tests/bridgeCommunication/test_bridgeCommunication.cpp:202-208 | repeating a disconnect message after it was handled gets no reply and changes nothing |
| BridgeProperties.ErrorsGoOnlyToRegisteredSenders | json_bridge/src/Bridge.cpp:143-162 | an invalid message is answered exactly when the ID known at the error is valid and registered; the answer is a signed error reply carrying the error text |
| BridgeProperties.ParseFailureRecoversId | json_bridge/src/Bridge.cpp:100-112 | a message failing the basic format is charged to the ID in its client_id field; processing aborts exactly when client_id is present but not convertible |
| BridgeProperties.EscapeChangesNothing | json_bridge/src/Bridge.cpp:107 | an aborted message leaves the bridge unchanged |
| BridgeProperties.EveryReplyIsSignedOrApiAnswer | json_bridge/src/Bridge.cpp:143-214 | each message adds at most one write; that write carries the bridge secret unless it is the API's answer to an authenticated call |
| TypeMapper.JsonTypeToCppType | scripts/generate_CLI_operations.py:24-38 | translates exactly the six tokens, to their C++ types; any other token raises the "cannot be converted" error |
| TypeMapper.TranslatableKindsAreJsonKinds | scripts/generate_CLI_operations.py:87-89 | every translatable token is an nlohmann type token other than null, array and object |
| OperationSpecs.Collect | scripts/generate_CLI_operations.py:83-90 | an accumulation loop that succeeds yields one piece per element |
| OperationSpecs.CollectSucceedsIff | scripts/generate_CLI_operations.py:83-90 | the loop succeeds exactly when every piece does, and then holds each piece in order |
| OperationSpecs.CollectFirstError | scripts/generate_CLI_operations.py:83-90 | the first failing element's error is the loop's error |
| OperationSpecs.CollectFailureIsPieceFailure | scripts/generate_CLI_operations.py:83-90 | a failed loop failed with the error of one of its elements |
| StrUtil.NatToStringInjective | scripts/generate_CLI_operations.py:144 | two counters with the same decimal text are equal |
| StrUtil.ParseNatToString | scripts/generate_CLI_operations.py:144 | reading a number's decimal text back gives the number |
| StrUtil.StripLine | scripts/generate_CLI_operations.py:177 | strip() on a line that has no space at either end removes only its newline |
| StrUtil.TrimmedIsJoin | scripts/generate_CLI_operations.py:122 | appending every piece with a separator and cutting off the last separator gives the joined list |
| StrUtil.LeadJoinAppend | scripts/generate_CLI_operations.py:209-217 | a chain behind a lead grows by the lead for its first piece and by the separator afterwards, and stays the lead followed by the joined pieces |
| Generator.ParameterPreludeStatesCount | scripts/generate_CLI_operations.py:68-80 | the object guard and size check name the declared count: two preludes for the same message and operation are equal exactly when their counts are |
| Generator.GenerateParameterBlocks | scripts/generate_CLI_operations.py:83-90 | the loop's text is the type guard and extraction of every parameter in order, or the first untranslatable type's error |
| Generator.GenerateParameterProcessing | scripts/generate_CLI_operations.py:67-92 | the loop's text equals the parameter-processing text, which GeneratorProperties characterises |
| Generator.NormalisedValue | scripts/generate_CLI_operations.py:109-119 | a falsy value becomes "" and true becomes true; any remaining string is kept; every other value fails the assert |
| Generator.GenerateApiFunctionCall | scripts/generate_CLI_operations.py:95-137 | the loop's text equals the envelope text |
| Generator.RegularArgumentStep | scripts/generate_CLI_operations.py:154-155 | a string argument extends the text by its value and ", "; any other value makes the whole regular call a type error |
| Generator.RegularArgumentsClosed | scripts/generate_CLI_operations.py:157-160 | cutting the last two characters of the accumulated text and closing the call gives the regular call's text, for an empty list too |
| Generator.GenerateRegularArguments | scripts/generate_CLI_operations.py:151-160 | the pasted arguments after the "(", trimmed and closed; left open without a parameter key |
| Generator.GenerateFunctionAssignment | scripts/generate_CLI_operations.py:140-164 | equals the binding text for api and regular calls, with the unknown-type error otherwise |
| Generator.GenerateDependencyProcessing | scripts/generate_CLI_operations.py:167-181 | the loop over the dependencies, with its counter, equals the dependency text |
| Generator.GenerateExecuteStatement | scripts/generate_CLI_operations.py:184-198 | equals the execute text, or its errors |
| Generator.DispatchChainStep | scripts/generate_CLI_operations.py:209-217 | each operation extends the chain by "if " or " else if " and its branch |
| Generator.GenerateDelegateFunction | scripts/generate_CLI_operations.py:201-224 | the loop's text is the head, the chain over the operations in order, and the tail |
| Generator.SourcePreludeFrames | scripts/generate_CLI_operations.py:234-245 | the text before the handlers starts with the license header, continues with a text independent of it, and ends with the definition of checkAPIResponse |
| Generator.SourcePreludeDeterminesHeader | scripts/generate_CLI_operations.py:234-235 | different license headers give different preludes |
| Generator.GenerateHandlerParameters | scripts/generate_CLI_operations.py:270-278 | the indented parameter processing, its error, or the guard refusing parameters when none are declared |
| Generator.GenerateHandlerDependencies | scripts/generate_CLI_operations.py:282-283 | the indented dependency processing, its error, or nothing without a depends key |
| Generator.GenerateHandler | scripts/generate_CLI_operations.py:267-292 | one handler is parameter processing, dependencies and the execute statement, or the first of their errors |
| Generator.GenerateHandlers | scripts/generate_CLI_operations.py:263-292 | the handlers of all operations in order, and their names |
| Generator.GenerateSource | scripts/generate_CLI_operations.py:234-295 | the whole generated source, or the first error |
| GeneratorProperties.NormalisationAcceptsIff | scripts/generate_CLI_operations.py:109-119 | normalisation accepts exactly strings, booleans and falsy values |
| GeneratorProperties.ApiCallSucceedsIff | scripts/generate_CLI_operations.py:103-126 | the envelope is generated exactly when every argument value is accepted; otherwise the assert fails |
| GeneratorProperties.ParameterProcessingSucceedsIff | scripts/generate_CLI_operations.py:83-90 | the parameter checks are generated exactly when every type is translatable |
| GeneratorProperties.ParameterErrorNamesFirstBadType | scripts/generate_CLI_operations.py:83-89 | the first untranslatable parameter type is the one reported |
| GeneratorProperties.FunctionAssignmentSucceedsIff | scripts/generate_CLI_operations.py:140-164 | a binding is generated exactly for a translatable type with a well-formed api or regular call; any other call type raises the unknown-type error |
| GeneratorProperties.DependencyBlockSucceedsIff | scripts/generate_CLI_operations.py:175-178 | one dependency's block is generated exactly when its assignment is valid |
| GeneratorProperties.DependencyProcessingSucceedsIff | scripts/generate_CLI_operations.py:167-181 | the dependencies are generated exactly when each one is valid |
| GeneratorProperties.QueryNamesDistinct | scripts/generate_CLI_operations.py:143-149 | distinct counters give distinct query<k> and response<k> names |
| GeneratorProperties.RegularCallWithoutParameterIsUnclosed | scripts/generate_CLI_operations.py:151-160 | a regular call without a parameter key ends in "(" |
| GeneratorProperties.RegularCallWithEmptyListLosesNameChar | scripts/generate_CLI_operations.py:151-160 | a regular call with an empty parameter list loses the "(" and the name's last character |
| GeneratorProperties.ExecuteStatementSucceedsIff | scripts/generate_CLI_operations.py:184-198 | the execute statement is generated exactly for a well-formed api call; a missing function and a non-api function raise their errors |
| GeneratorProperties.HandlerSucceedsIff | scripts/generate_CLI_operations.py:263-292 | a handler is generated exactly for a valid operation |
| GeneratorProperties.GenerationSucceedsIff | scripts/generate_CLI_operations.py:263-295 | the source is generated exactly when every operation is valid |
| GeneratorProperties.GenerationFirstError | scripts/generate_CLI_operations.py:263-292 | the first invalid operation decides the error |
| GeneratorProperties.DispatcherWithoutOperationsDangles | scripts/generate_CLI_operations.py:209-221 | without operations " else {" directly follows the prelude's closing brace |
| GeneratedRuntime.CheckApiResponse | scripts/generate_CLI_operations.py:41-63 | passes exactly for response_type "api_call"; a missing response_type or response gives "invalid response"; an error type gives its error_message, and a type error without a string one; any other string type gives the generic error; a response_type that is not a string is a type error |
| GeneratedRuntime.BridgeRepliesAsChecked | scripts/generate_CLI_operations.py:49-60 | the bridge's own error, disconnect and registration replies fail the check with the error text, "invalid response" and the generic error |
| GeneratedRuntime.ArgumentValues | scripts/generate_CLI_operations.py:108-119 | each argument is paired with the value of its normalised text, in order |
| Json.ObjectOf | scripts/generate_CLI_operations.py:105-119 | the initializer list gives an object with exactly the pairs' keys; each key holds the value of its first pair, as nlohmann keeps the first of duplicate keys |
| GeneratedRuntime.BuildQuery | scripts/generate_CLI_operations.py:97-128 | the query is {message_type: "api_call", message: {function: name, ...}} with a parameter object exactly when there are arguments |
| GeneratedRuntime.EnvelopeHasApiCallFormat | scripts/generate_CLI_operations.py:97-101 | every such envelope passes the bridge's basic format check as an API call |
| GeneratedRuntime.QueryBodyAcceptedIff | scripts/generate_CLI_operations.py:97-128 | the bridge accepts the envelope's body exactly when the function is known and the function has arguments or takes no parameter |
| GeneratedRuntime.KindOf | scripts/generate_CLI_operations.py:87 | the guard's type token names an nlohmann type |
| GeneratedRuntime.CheckedParameterConverts | scripts/generate_CLI_operations.py:87-89 | a value that passed the type guard converts to the parameter's C++ type |
| GeneratedRuntime.ToInt32 | scripts/generate_CLI_operations.py:88-89 | the cast to int gives the one 32-bit two's complement value congruent to the number modulo 2^32 |
| GeneratedRuntime.GetAs | scripts/generate_CLI_operations.py:88-89 | get<T>() keeps strings and booleans; it casts numbers and booleans to int modulo 2^32, and numbers only to uint64_t modulo 2^64 and to double as they are |
| GeneratedRuntime.BooleanReadOnlyAsBoolOrInt | scripts/generate_CLI_operations.py:88-89 | of the generated types, only bool and int read a boolean; get<double>() and get<uint64_t>() refuse it |
| GeneratedRuntime.CastKeepsExactlyFittingValues | scripts/generate_CLI_operations.py:88-89 | the int cast keeps exactly the integers in the 32-bit range; on numbers, the uint64_t cast keeps exactly the unsigned values below 2^64 |
| GeneratedRuntime.ParametersPresentStep | scripts/generate_CLI_operations.py:83-90 | the parameter check holds exactly when it holds for the first parameter and for the rest |
| GeneratedRuntime.BindEachSucceedsIff | scripts/generate_CLI_operations.py:83-90 | binding succeeds exactly when every parameter is present with its type |
| GeneratedRuntime.ParameterNamesStep | scripts/generate_CLI_operations.py:83-90 | the names are the first parameter's name and the names of the rest |
| GeneratedRuntime.BindEachBinds | scripts/generate_CLI_operations.py:87-89 | a successful binding adds exactly the parameter names; each is bound to its member as get<>() converts it for its last declaration's type; other bindings are kept |
| GeneratedRuntime.BindingSucceedsIff | scripts/generate_CLI_operations.py:72-90 | parameters are bound exactly when a parameter object of exactly N members holds every parameter with its type; each name is then bound to its converted member |
| GeneratedRuntime.ArityRejectedBeforeExtraction | scripts/generate_CLI_operations.py:76-79 | a parameter object of the wrong size is rejected with the arity text, whatever its members |
| GeneratedRuntime.FirstBadParameterReported | scripts/generate_CLI_operations.py:83-90 | the first parameter failing its guard is the one reported |
| GeneratedRuntime.RunDependency | scripts/generate_CLI_operations.py:140-164 | an api dependency sends one query and a regular one none; every query is an API-call envelope; no failure is a message error |
| GeneratedRuntime.RunDependencies | scripts/generate_CLI_operations.py:172-179 | success sends exactly one query per api dependency, and a failure sends no more; all queries are envelopes |
| GeneratedRuntime.ApiDependencyBindsOnlyCheckedResponse | scripts/generate_CLI_operations.py:143-149 | an api dependency succeeds exactly when its response passes the check and has a convertible return_value; that value, converted by get<>(), is then bound to the dependency's name |
| GeneratedRuntime.BooleanReturnValueRejected | scripts/generate_CLI_operations.py:148-149 | an api dependency declared number, number_float or number_unsigned whose checked response returns a boolean fails with the type error of get<double>() or get<uint64_t>() |
| GeneratedRuntime.ValidDependenciesSplit | scripts/generate_CLI_operations.py:172-179 | two valid dependency lists concatenate to a valid list |
| GeneratedRuntime.ThreadInOrder | scripts/generate_CLI_operations.py:172-179 | running two lists one after the other is running their concatenation |
| GeneratedRuntime.DependenciesThread | scripts/generate_CLI_operations.py:172-179 | the dependencies are the generic in-order run of one dependency at a time |
| GeneratedRuntime.DependenciesRunInOrder | scripts/generate_CLI_operations.py:172-179 | resolving a list is resolving its first part and then, with those bindings, its second part; the queries are in list order |
| GeneratedRuntime.HandlerDependencies | scripts/generate_CLI_operations.py:282-283 | the dependency phase never fails for a message error and sends only envelopes |
| GeneratedRuntime.RunHandler | scripts/generate_CLI_operations.py:267-292 | a handler sends only API-call envelopes |
| GeneratedRuntime.HandlerReturnsLastResponse | scripts/generate_CLI_operations.py:184-198 | a handler succeeds exactly when binding and dependencies succeed; its result is the unchecked response to its last query; it sends one query per api dependency and one more |
| GeneratedRuntime.ZeroParameterHandlerNeverRejectsMessage | scripts/generate_CLI_operations.py:273-278 | an operation without parameters never raises a message error, because the exception is built but not thrown |
| GeneratedRuntime.FirstIndexOf | scripts/generate_CLI_operations.py:209-217 | the first position holding the name, or none when no position does |
| GeneratedRuntime.HandleOperation | scripts/generate_CLI_operations.py:201-224 | a missing or non-string "operation" is rejected before any query; only envelopes are sent |
| GeneratedRuntime.DispatchRunsFirstMatch | scripts/generate_CLI_operations.py:209-217 | the first operation in load order with the requested name is run |
| GeneratedRuntime.DispatchRunsNamedOperation | scripts/generate_CLI_operations.py:209-217 | when no two operations share a name, as in a file that compiles, a request runs the operation it names |
| GeneratedRuntime.UnknownOperationRejected | scripts/generate_CLI_operations.py:219-221 | a name no operation has is rejected as unknown, before any query |
| JsonInstruction.Execute | cli/JSONInstruction.cpp:18-30 | a missing or non-string message_type is a message error; any other value than "api_call" and "operation" is rejected by name; a success is the response to the last query |
| JsonInstruction.HandlerResultIsLastResponse | cli/handleOperation.h:22-31 | whatever operation runs, a successful result is the response to the last API call sent |
| JsonInstruction.ApiCallForwardedUnchanged | cli/JSONInstruction.cpp:21-22 | an api_call message is sent unchanged and its response is the result |
| JsonInstruction.OperationMessageRoutesToHandler | cli/JSONInstruction.cpp:23-25 | an operation message runs the handler on its "message" body; a missing body reads as null and is rejected for its missing operation |
| JsonInstruction.OperationQueriesAreApiCalls | cli/JSONInstruction.cpp:23-25 | every query an operation sends passes the bridge's basic format check as an API call |
| JsonInstruction.ClientRoutingIsCaseSensitive | cli/JSONInstruction.cpp:21-29 | "API_CALL" is an API call to the bridge but an unknown option to the client |

## Left out

- Named pipes: the receive loop, the timeouts and the writes. Writes are an outbox; whether a pipe exists is a parameter.
- Threads, mutexes, `doStart`/`start`/`stop` and logging: these are concurrency and console output.
- The bridge secret is generated from a random device when the bridge starts. The constructor takes it as a parameter.
- APICall_handleImpl.cpp is not part of this model. The function tables and the per-function execution are parameters of the bridge.
- `JSONInterface`, `cli/main.cpp` and the plugin glue: pipe round trips, argument parsing and exit codes, all of which are I/O.
- The generator's argparse, directory listing, YAML loading, date-stamped license header and file output are I/O. The operation definitions arrive as a sequence in load order, and the header as a string.
- The C++ expressions an operation definition pastes into the generated code, such as argument values and regular calls, are evaluated by an `Evaluator` parameter.
- The `Evaluator` is total: the model assumes that a pasted expression never throws, although arbitrary C++ such as `msg["x"].get<int>()` can. Three statements rest on this. GeneratedRuntime.RunDependency lets a regular dependency always succeed. GeneratedRuntime.HandlerReturnsLastResponse says the handler succeeds exactly when binding and dependencies succeed, and GeneratedRuntime.ZeroParameterHandlerNeverRejectsMessage says only the queries can fail. With a throwing expression, each of these would also fail with that expression's exception.
- GeneratedRuntime.RunDependency: for a regular call, the conversion of the call's result to the declared C++ type is left to the `Evaluator`; only an api dependency's `get<>()` is modelled.
- The C++ compiler is not modelled. Generated text that would not compile gets a meaning anyway, and GeneratorProperties states the text generated for each such case:
  - A regular call without a `parameter` key is left unclosed. A regular call with an empty list loses a character of its name. The interpreter runs either as the call of the full name with the listed arguments.
  - Without operations, the dispatcher dangles an ` else {`. The interpreter rejects every name as unknown.
  - Operations that share a name define the same handler twice. The interpreter runs the first (GeneratedRuntime.DispatchRunsFirstMatch).
  - Two parameters with the same name, or a dependency named like a parameter or an earlier dependency, declare one variable twice in one C++ scope. The interpreter binds the name to the last declaration: GeneratedRuntime.BindEachBinds states this for parameters, and GeneratedRuntime.ApiDependencyBindsOnlyCheckedResponse binds a dependency by overwriting the name.
- The nlohmann library: its parser, its error texts, and the floating-point content of numbers. Only type tags, strings, integers and members are modelled.
- Reading a missing member through the const `operator[]` is undefined behaviour in nlohmann. The one such read in the generated code is `response["response"]["error_message"]` in `checkAPIResponse`, for an error response without `error_message`. GeneratedRuntime.CheckApiResponse models it as a type error.
- The schema of the operation definitions. OperationSpecs holds every key the script reads unconditionally as present, and every name it concatenates as a string. Two errors are therefore not modelled:
  - the KeyError for a missing `operation` or `executes`, a parameter's `name` or `type`, a dependency's `name`, `type` or `function`, a function's `type` or `name`, or an argument's `value`;
  - the TypeError for a name that is not a string.
- GeneratedRuntime.GetAs: the cast of a floating-point number to an integer type is undefined behaviour out of range, and is modelled by the same wrap-around. The rounding of a large integer to double is not modelled, since the fractional content of numbers is left out.
- Bridge.ClientIdOf: the cast of an out-of-range floating-point number to `unsigned int` is undefined behaviour, and is modelled by the same wrap-around as an integer.
- Bridge.Classify: its contract states only that dispatch targets registered clients. The order and the errors of the checks are stated by BridgeProperties.AuthenticationOrder.
- GeneratedRuntime.RunHandler: its contract states only that envelopes are sent. What it returns is stated by GeneratedRuntime.HandlerReturnsLastResponse.
- The exception the zero-parameter branch builds is never thrown, and a built but unthrown exception has no effect, so it is not represented.
