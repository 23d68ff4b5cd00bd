/**
 * generate_CLI_operations.py: the emitters that turn operation definitions into the C++
 * source of the CLI's operation handlers. Each emitter is a method that grows its text the
 * way the script does, proved equal to a text function; the text functions use joins where
 * the script appends separators and trims the last one.
 */
module Generator {
  import opened Wrappers
  import opened StrUtil
  import opened OperationSpecs
  import opened TypeMapper

  /** The lines generateAPIResponseCheck appends, in order. */
  const API_RESPONSE_CHECK_LINES: seq<string> := [
    "void checkAPIResponse(const " + "nlohmann::json &response) {\n",
    "\tif (response.contains(\"response_type\") " + "&& response[\"response_type\"].get<std" + "::string>() == \"api_call\") {\n",
    "\t\t// All good\n",
    "\t\treturn;\n",
    "\t}\n",
    "\t\n",
    "\t// There seems to have been an error\n",
    "\tif (!response.contains(" + "\"response_type\") || " + "!response.contains(\"response\")) {\n",
    "\t\t// We can't process this response - " + "seems invalid\n",
    "\t\tthrow OperationException(\"Got invalid " + "response from Mumble-JSON-Bridge.\");\n",
    "\t}\n",
    "\t\n",
    "\tif (response[\"response_type\"].get<std" + "::string>() == \"api_error\"\n",
    "\t\t|| response[\"response_type\"].get<std" + "::string>() == \"api_error_optional\"\n",
    "\t\t|| response[\"response_type\"].get<std" + "::string>() == \"error\") {\n",
    "\t\tthrow OperationException(" + "response[\"response\"][\"error_message\"]." + "get<std::string>());\n",
    "\t} else {\n",
    "\t\tthrow OperationException(\"Generic API " + "error ecountered\");\n",
    "\t}\n",
    "}\n"
  ]

  /** The fixed text of generateAPIResponseCheck. */
  function ApiResponseCheckText(): string {
    Concat(API_RESPONSE_CHECK_LINES)
  }

  // ---------------------------------------------------------------- parameter processing

  /** The lines up to the expected count: the guard on the parameter object and the start of the size check. */
  function ArityGuardHead(messageName: string): string {
    "// Validate and extract parameter\n"
    + "\n"
    + "MESSAGE_ASSERT_FIELD(" + messageName + ", \"parameter\", object);\n"
    + "\n"
    + "const nlohmann::json &operationParams = " + messageName + "[\"parameter\"];\n"
    + "\n"
    + "if (operationParams.size() != "
  }

  /** The rest of the size check, from the ")" after the expected count: the exception naming the count. */
  function ArityGuardTail(operationName: string, count: nat): string {
    ") {\n"
    + "\tthrow ::Mumble::JsonBridge::Messages" + "::InvalidMessageException(std::string(" + "\"Operation \\\"" + operationName
    + "\\\" expects " + NatToString(count) + " parameter, but was provided with \") + " + "std::to_string(operationParams.size(" + ")));\n"
    + "}\n"
    + "\n"
  }

  /** The parameter object guard and the arity check, naming the expected count twice. */
  function ParameterPrelude(messageName: string, operationName: string, count: nat): string {
    ArityGuardHead(messageName) + NatToString(count) + ArityGuardTail(operationName, count)
  }

  /**
   * The size check compares with the declared count and nothing else: two preludes for the
   * same message and operation are equal exactly when they expect the same number of parameters.
   */
  lemma ParameterPreludeStatesCount(messageName: string, operationName: string, n: nat, k: nat)
    ensures ParameterPrelude(messageName, operationName, n) == ParameterPrelude(messageName, operationName, k) <==> n == k
  {
    if ParameterPrelude(messageName, operationName, n) == ParameterPrelude(messageName, operationName, k) {
      DigitsBeforeDelimiter(ArityGuardHead(messageName), NatToString(n), ArityGuardTail(operationName, n),
                            NatToString(k), ArityGuardTail(operationName, k));
      NatToStringInjective(n, k);
    }
  }

  /** The type guard and the typed extraction of one declared parameter. */
  function ParameterBlock(position: nat, p: ParameterSpec): Result<string, GenError> {
    var cppType := JsonTypeToCppType(p.kind);
    if cppType.Failure? then Failure(cppType.error)
    else
      Success("MESSAGE_ASSERT_FIELD(operationParams, \"" + p.name + "\", " + p.kind + ");\n"
              + cppType.value + " " + p.name + " = operationParams[\"" + p.name + "\"].get<" + cppType.value + ">();\n"
              + "\n")
  }

  /** The blocks of all declared parameters in order, or the first translation error. */
  function ParameterBlocksText(parameter: seq<ParameterSpec>): Result<string, GenError> {
    var blocks := Collect(parameter, ParameterBlock);
    if blocks.Failure? then Failure(blocks.error) else Success(Concat(blocks.value))
  }

  function ParameterProcessingText(parameter: seq<ParameterSpec>, messageName: string, operationName: string)
    : Result<string, GenError>
  {
    var blocks := ParameterBlocksText(parameter);
    if blocks.Failure? then Failure(blocks.error)
    else Success(ParameterPrelude(messageName, operationName, |parameter|) + blocks.value)
  }

  /** The loop of generateParameterProcessing: one type guard and one extraction per parameter. */
  method GenerateParameterBlocks(parameter: seq<ParameterSpec>) returns (r: Result<string, GenError>)
    ensures r == ParameterBlocksText(parameter)
  {
    var generated := "";
    for i := 0 to |parameter|
      invariant Collect(parameter[..i], ParameterBlock).Success?
      invariant generated == Concat(Collect(parameter[..i], ParameterBlock).value)
    {
      var paramName := parameter[i].name;
      var paramType := parameter[i].kind;
      CollectStep(parameter, ParameterBlock, i);
      var cppType := JsonTypeToCppType(paramType);
      if cppType.Failure? {
        return Failure(cppType.error);
      }
      var block := "MESSAGE_ASSERT_FIELD(operationParams, \"" + paramName + "\", " + paramType + ");\n";
      block := block + cppType.value + " " + paramName + " = operationParams[\"" + paramName + "\"].get<"
               + cppType.value + ">();\n";
      block := block + "\n";
      ConcatAppend(Collect(parameter[..i], ParameterBlock).value, block);
      generated := generated + block;
    }
    assert parameter[..|parameter|] == parameter;
    r := Success(generated);
  }

  /** generateParameterProcessing */
  method GenerateParameterProcessing(parameter: seq<ParameterSpec>, messageName: string, operationName: string)
    returns (r: Result<string, GenError>)
    ensures r == ParameterProcessingText(parameter, messageName, operationName)
  {
    var generated := ParameterPrelude(messageName, operationName, |parameter|);
    var blocks := GenerateParameterBlocks(parameter);
    if blocks.Failure? {
      return Failure(blocks.error);
    }
    generated := generated + blocks.value;
    r := Success(generated);
  }

  // ---------------------------------------------------------------- API call envelopes

  /**
   * The normalisation of an argument value, step by step as the script does it: a falsy value
   * becomes the C++ literal "", a boolean true or false, and what is left must be a string.
   * Since false is falsy, it becomes "" and never the literal false.
   */
  function NormalisedValue(v: YamlValue): (r: Result<string, GenError>)
    ensures r.Success? <==> !Truthy(v) || v.YStr? || v == YBool(true)
    ensures !Truthy(v) ==> r == Success("\"\"")
    ensures v == YBool(true) ==> r == Success("true")
    ensures Truthy(v) && v.YStr? ==> r == Success(v.s)
    ensures r.Failure? ==> r.error == AssertionError
  {
    var value := if !Truthy(v) then YStr("\"\"") else v;
    var value := if value.YBool? then YStr(if value.b then "true" else "false") else value;
    if value.YStr? then Success(value.s) else Failure(AssertionError)
  }

  /** One member of the envelope's parameter object, without its trailing separator. */
  function ArgumentLine(position: nat, a: ArgumentSpec): Result<string, GenError> {
    var value := NormalisedValue(a.value);
    if value.Failure? then Failure(value.error)
    else Success("\t\t\t\t\t{ \"" + a.name + "\", " + value.value + " }")
  }

  function QueryHead(queryName: string, functionName: string): string {
    "// clang-format off\n"
    + "nlohmann::json " + queryName + " = {\n"
    + "\t{ \"message_type\", \"api_call\" },\n"
    + "\t{ \"message\",\n"
    + "\t\t{\n"
    + "\t\t\t{ \"function\", \"" + functionName + "\" }"
  }

  function QueryTail(queryName: string, responseName: string): string {
    "\t\t}\n"
    + "\t}\n"
    + "};\n"
    + "// clang-format on\n"
    + "\n"
    + "nlohmann::json " + responseName + " = executeQuery(" + queryName + ");\n"
  }

  /** The envelope, with a parameter object only for a non-empty argument list, joined by ",\n". */
  function ApiFunctionCallText(queryName: string, responseName: string, functionName: string,
                               parameter: seq<ArgumentSpec>): Result<string, GenError>
  {
    if parameter == [] then Success(QueryHead(queryName, functionName) + "\n" + QueryTail(queryName, responseName))
    else
      var lines := Collect(parameter, ArgumentLine);
      if lines.Failure? then Failure(lines.error)
      else
        Success(QueryHead(queryName, functionName) + ",\n" + "\t\t\t{ \"parameter\",\n" + "\t\t\t\t{\n"
                + Join(lines.value, ",\n") + "\n" + "\t\t\t\t}\n" + "\t\t\t}\n" + QueryTail(queryName, responseName))
  }

  /** generateAPIFunctionCall */
  method GenerateApiFunctionCall(queryName: string, responseName: string, functionName: string,
                                 parameter: seq<ArgumentSpec>) returns (r: Result<string, GenError>)
    ensures r == ApiFunctionCallText(queryName, responseName, functionName, parameter)
  {
    var generated := "// clang-format off\n";
    generated := generated + "nlohmann::json " + queryName + " = {\n";
    generated := generated + "\t{ \"message_type\", \"api_call\" },\n";
    generated := generated + "\t{ \"message\",\n";
    generated := generated + "\t\t{\n";
    generated := generated + "\t\t\t{ \"function\", \"" + functionName + "\" }";
    if |parameter| > 0 {
      generated := generated + ",\n";
      generated := generated + "\t\t\t{ \"parameter\",\n";
      generated := generated + "\t\t\t\t{\n";
      ghost var listStart := generated;
      for i := 0 to |parameter|
        invariant Collect(parameter[..i], ArgumentLine).Success?
        invariant generated == listStart + ConcatTerminated(Collect(parameter[..i], ArgumentLine).value, ",\n")
      {
        CollectStep(parameter, ArgumentLine, i);
        var value := NormalisedValue(parameter[i].value);
        if value.Failure? {
          return Failure(value.error);
        }
        var line := "\t\t\t\t\t{ \"" + parameter[i].name + "\", " + value.value + " }";
        ghost var pieces := ConcatTerminated(Collect(parameter[..i], ArgumentLine).value, ",\n");
        ConcatTerminatedAppend(Collect(parameter[..i], ArgumentLine).value, line, ",\n");
        AppendAssoc(listStart, pieces + line, ",\n");
        AppendAssoc(listStart, pieces, line);
        generated := generated + line + ",\n";
      }
      assert parameter[..|parameter|] == parameter;
      TrimmedIsJoin(listStart, Collect(parameter, ArgumentLine).value, ",\n");
      // remove the trailing ",\n"
      generated := DropLast(generated, 2);
      generated := generated + "\n";
      generated := generated + "\t\t\t\t}\n";
      generated := generated + "\t\t\t}\n";
    } else {
      generated := generated + "\n";
    }
    var tail := "\t\t}\n";
    tail := tail + "\t}\n";
    tail := tail + "};\n";
    tail := tail + "// clang-format on\n";
    tail := tail + "\n";
    tail := tail + "nlohmann::json " + responseName + " = executeQuery(" + queryName + ");\n";
    r := Success(generated + tail);
  }

  // ---------------------------------------------------------------- dependencies

  function QueryName(counter: nat): string {
    "query" + NatToString(counter)
  }

  function ResponseName(counter: nat): string {
    "response" + NatToString(counter)
  }

  function UnknownCallTypeText(callType: string): string {
    "Unknown function type " + callType
  }

  /** A regular call's argument is pasted as it is, which needs it to be a string. */
  function RegularArgument(position: nat, a: ArgumentSpec): Result<string, GenError> {
    if a.value.YStr? then Success(a.value.s) else Failure(TypeError)
  }

  /**
   * What a regular call appends to its head: nothing without a "parameter" key; otherwise the
   * arguments joined by ", " and the closing ");", after trimming a trailing ", " that an
   * empty list never appended.
   */
  function RegularArgumentsText(head: string, parameter: Option<seq<ArgumentSpec>>): Result<string, GenError> {
    if parameter.None? then Success(head)
    else if parameter.value == [] then Success(DropLast(head, 2) + ");\n")
    else
      var values := Collect(parameter.value, RegularArgument);
      if values.Failure? then Failure(values.error)
      else Success(head + Join(values.value, ", ") + ");\n")
  }

  /**
   * The binding of one dependency: an api dependency queries the bridge, checks the response
   * and extracts its return_value; a regular one calls a C++ function with the arguments
   * joined by ", ". Without a "parameter" key the call is never closed, and with an empty list
   * the trimming eats the "(" and the last character of the function's name.
   */
  function FunctionAssignmentText(varName: string, varType: string, f: FunctionSpec, counter: nat)
    : Result<string, GenError>
  {
    if f.callType == "api" then
      var call := ApiFunctionCallText(QueryName(counter), ResponseName(counter), f.name, ArgumentsOf(f));
      if call.Failure? then Failure(call.error)
      else
        var cppType := JsonTypeToCppType(varType);
        if cppType.Failure? then Failure(cppType.error)
        else
          Success(call.value + "\n" + "checkAPIResponse(response" + NatToString(counter) + ");\n"
                  + cppType.value + " " + varName + " = response" + NatToString(counter)
                  + "[\"response\"][\"return_value\"].get<" + cppType.value + ">();\n")
    else if f.callType == "regular" then
      var cppType := JsonTypeToCppType(varType);
      if cppType.Failure? then Failure(cppType.error)
      else
        RegularArgumentsText(cppType.value + " " + varName + " = " + f.name + "(", f.parameter)
    else Failure(RuntimeError(UnknownCallTypeText(f.callType)))
  }

  /** One turn of the argument loop: a string argument and ", " are appended, anything else fails the run. */
  lemma RegularArgumentStep(head: string, args: seq<ArgumentSpec>, i: nat)
    requires i < |args| && Collect(args[..i], RegularArgument).Success?
    ensures args[i].value.YStr? ==>
              && Collect(args[..i + 1], RegularArgument).Success?
              && head + ConcatTerminated(Collect(args[..i], RegularArgument).value, ", ") + args[i].value.s + ", "
                 == head + ConcatTerminated(Collect(args[..i + 1], RegularArgument).value, ", ")
    ensures !args[i].value.YStr? ==> RegularArgumentsText(head, Some(args)) == Failure(TypeError)
  {
    CollectStep(args, RegularArgument, i);
    if args[i].value.YStr? {
      var pieces := ConcatTerminated(Collect(args[..i], RegularArgument).value, ", ");
      ConcatTerminatedAppend(Collect(args[..i], RegularArgument).value, args[i].value.s, ", ");
      AppendAssoc(head, pieces + args[i].value.s, ", ");
      AppendAssoc(head, pieces, args[i].value.s);
    }
  }

  /** After the loop, cutting off the last ", " and closing the call gives the regular call's text. */
  lemma RegularArgumentsClosed(head: string, args: seq<ArgumentSpec>)
    requires Collect(args, RegularArgument).Success?
    ensures RegularArgumentsText(head, Some(args))
            == Success(DropLast(head + ConcatTerminated(Collect(args, RegularArgument).value, ", "), 2) + ");\n")
  {
    if args != [] {
      TrimmedIsJoin(head, Collect(args, RegularArgument).value, ", ");
    } else {
      assert head + ConcatTerminated(Collect(args, RegularArgument).value, ", ") == head;
    }
  }

  /** The regular branch of generateFunctionAssignment after the "(": the argument loop and the trimming. */
  method GenerateRegularArguments(head: string, parameter: Option<seq<ArgumentSpec>>) returns (r: Result<string, GenError>)
    ensures r == RegularArgumentsText(head, parameter)
  {
    var generated := head;
    if parameter.Some? {
      var args := parameter.value;
      for i := 0 to |args|
        invariant Collect(args[..i], RegularArgument).Success?
        invariant generated == head + ConcatTerminated(Collect(args[..i], RegularArgument).value, ", ")
      {
        RegularArgumentStep(head, args, i);
        if !args[i].value.YStr? {
          return Failure(TypeError);
        }
        generated := generated + args[i].value.s + ", ";
      }
      assert args[..|args|] == args;
      RegularArgumentsClosed(head, args);
      // remove the trailing ", "
      generated := DropLast(generated, 2);
      generated := generated + ");\n";
    }
    r := Success(generated);
  }

  /** generateFunctionAssignment */
  method GenerateFunctionAssignment(varName: string, varType: string, functionSpec: FunctionSpec, counter: nat)
    returns (r: Result<string, GenError>)
    ensures r == FunctionAssignmentText(varName, varType, functionSpec, counter)
  {
    var generated := "";
    if functionSpec.callType == "api" {
      var call := GenerateApiFunctionCall("query" + NatToString(counter), "response" + NatToString(counter),
                                          functionSpec.name,
                                          if functionSpec.parameter.Some? then functionSpec.parameter.value else []);
      if call.Failure? {
        return Failure(call.error);
      }
      generated := generated + call.value;
      assert generated == call.value;
      generated := generated + "\n";
      generated := generated + "checkAPIResponse(response" + NatToString(counter) + ");\n";
      var cppType := JsonTypeToCppType(varType);
      if cppType.Failure? {
        return Failure(cppType.error);
      }
      generated := generated + cppType.value + " " + varName + " = response" + NatToString(counter)
                   + "[\"response\"][\"return_value\"].get<" + cppType.value + ">();\n";
    } else if functionSpec.callType == "regular" {
      var cppType := JsonTypeToCppType(varType);
      if cppType.Failure? {
        return Failure(cppType.error);
      }
      r := GenerateRegularArguments(cppType.value + " " + varName + " = " + functionSpec.name + "(",
                                    functionSpec.parameter);
      return;
    } else {
      return Failure(RuntimeError("Unknown function type " + functionSpec.callType));
    }
    r := Success(generated);
  }

  /** One dependency's binding, stripped, and an empty line; dependencies count from 1. */
  function DependencyBlock(position: nat, d: DependencySpec): Result<string, GenError> {
    var assignment := FunctionAssignmentText(d.name, d.kind, d.call, position + 1);
    if assignment.Failure? then Failure(assignment.error)
    else Success(Strip(assignment.value) + "\n" + "\n")
  }

  function DependencyProcessingText(dependencies: seq<DependencySpec>, operationName: string): Result<string, GenError> {
    var blocks := Collect(dependencies, DependencyBlock);
    if blocks.Failure? then Failure(blocks.error)
    else Success("// Obtain all needed values\n" + "\n" + Concat(blocks.value))
  }

  /** generateDepencyProcessing */
  method GenerateDependencyProcessing(dependencies: seq<DependencySpec>, operationName: string)
    returns (r: Result<string, GenError>)
    ensures r == DependencyProcessingText(dependencies, operationName)
  {
    var generated := "// Obtain all needed values\n";
    generated := generated + "\n";
    ghost var prelude := generated;
    var counter := 1;
    for i := 0 to |dependencies|
      invariant counter == i + 1
      invariant Collect(dependencies[..i], DependencyBlock).Success?
      invariant generated == prelude + Concat(Collect(dependencies[..i], DependencyBlock).value)
    {
      var depName := dependencies[i].name;
      var depType := dependencies[i].kind;
      CollectStep(dependencies, DependencyBlock, i);
      var assignment := GenerateFunctionAssignment(depName, depType, dependencies[i].call, counter);
      if assignment.Failure? {
        return Failure(assignment.error);
      }
      var block := Strip(assignment.value) + "\n";
      block := block + "\n";
      ConcatAppend(Collect(dependencies[..i], DependencyBlock).value, block);
      AppendAssoc(prelude, Concat(Collect(dependencies[..i], DependencyBlock).value), block);
      generated := generated + block;
      counter := counter + 1;
    }
    assert dependencies[..|dependencies|] == dependencies;
    r := Success(generated);
  }

  // ---------------------------------------------------------------- the execute statement

  const MISSING_EXECUTE_FUNCTION_TEXT := "Missing \"function\" spec in \"executes\" " + "statement"
  const NON_API_EXECUTE_TEXT := "Currently only API function calls are " + "supported for operation-executes " + "statements"

  /** The final query, whose response is returned without being checked. */
  function ExecuteStatementText(execSpec: ExecuteSpec): Result<string, GenError> {
    if execSpec.call.None? then Failure(RuntimeError(MISSING_EXECUTE_FUNCTION_TEXT))
    else if execSpec.call.value.callType != "api" then Failure(RuntimeError(NON_API_EXECUTE_TEXT))
    else
      var call := ApiFunctionCallText("operationQuery", "result", execSpec.call.value.name, ArgumentsOf(execSpec.call.value));
      if call.Failure? then Failure(call.error)
      else Success(Strip(call.value) + "\n" + "\n" + "return result;")
  }

  /** generateExecuteStatement */
  method GenerateExecuteStatement(execSpec: ExecuteSpec) returns (r: Result<string, GenError>)
    ensures r == ExecuteStatementText(execSpec)
  {
    if execSpec.call.None? {
      return Failure(RuntimeError("Missing \"function\" spec in \"executes\" " + "statement"));
    }
    var functionSpec := execSpec.call.value;
    if functionSpec.callType != "api" {
      return Failure(RuntimeError("Currently only API function calls are " + "supported for operation-executes " + "statements"));
    }
    var call := GenerateApiFunctionCall("operationQuery", "result", functionSpec.name,
                                        if functionSpec.parameter.Some? then functionSpec.parameter.value else []);
    if call.Failure? {
      return Failure(call.error);
    }
    var generated := Strip(call.value) + "\n";
    generated := generated + "\n";
    generated := generated + "return result;";
    r := Success(generated);
  }

  // ---------------------------------------------------------------- the dispatcher

  function DelegateHead(): string {
    "nlohmann::json handleOperation(const " + "nlohmann::json &msg,\n"
    + "\tconst std::function<nlohmann::json(" + "nlohmann::json &)> &executeQuery) {\n"
    + "\tif (!msg.contains(\"operation\") || " + "!msg[\"operation\"].is_string()) {\n"
    + "\t\tthrow OperationException(\"Missing " + "\\\"operation\\\" field (required to be of " + "type string)\");\n"
    + "\t}\n"
    + "\n"
  }

  function DispatchBranch(name: string): string {
    "(msg[\"operation\"].get<std::string>() == " + "\"" + name + "\") {\n"
    + "\t\treturn handle_" + name + "_operation(msg, executeQuery);\n"
    + "\t}"
  }

  function DelegateTail(): string {
    " else {\n"
    + "\t\tthrow OperationException(std::string(" + "\"Unknown operation \\\"\") + " + "msg[\"operation\"].get<std::string>() + " + "\"\\\"\");\n"
    + "\t}\n"
    + "}\n"
  }

  function Branches(operations: seq<string>): (r: seq<string>)
    ensures |r| == |operations|
  {
    seq(|operations|, i requires 0 <= i < |operations| => DispatchBranch(operations[i]))
  }

  /** The chain "if (...) {...} else if (...) {...}" over the operations in load order. */
  function DispatchChain(operations: seq<string>): string {
    if operations == [] then "" else "\tif " + Join(Branches(operations), " else if ")
  }

  function DelegateText(operations: seq<string>): string {
    DelegateHead() + DispatchChain(operations) + DelegateTail()
  }

  /** One more operation extends the chain by its keyword and its branch. */
  lemma DispatchChainStep(operations: seq<string>, i: nat)
    requires i < |operations|
    ensures DispatchChain(operations[..i + 1])
            == DispatchChain(operations[..i]) + ((if i == 0 then "\tif " else " else if ") + DispatchBranch(operations[i]))
  {
    var front := Branches(operations[..i]);
    var branch := DispatchBranch(operations[i]);
    assert Branches(operations[..i + 1]) == front + [branch];
    LeadJoinAppend("\tif ", front, branch, " else if ");
  }

  /** generatedDelegateFunction */
  method GenerateDelegateFunction(operations: seq<string>) returns (r: string)
    ensures r == DelegateText(operations)
  {
    var generated := DelegateHead();
    ghost var head := generated;
    for i := 0 to |operations|
      invariant generated == head + DispatchChain(operations[..i])
    {
      var keyword;
      if i == 0 {
        keyword := "\tif ";
      } else {
        keyword := " else if ";
      }
      var branch := "(msg[\"operation\"].get<std::string>() == " + "\"" + operations[i] + "\") {\n";
      branch := branch + "\t\treturn handle_" + operations[i] + "_operation(msg, executeQuery);\n";
      branch := branch + "\t}";
      DispatchChainStep(operations, i);
      AppendAssoc(head + DispatchChain(operations[..i]), keyword, branch);
      AppendAssoc(head, DispatchChain(operations[..i]), keyword + branch);
      generated := generated + keyword + branch;
    }
    assert operations[..|operations|] == operations;
    var tail := DelegateTail();
    r := generated + tail;
  }

  // ---------------------------------------------------------------- per-operation assembly

  /** main's use of a generated part: indent every line after the first, strip, re-terminate. */
  function Indented(text: string): string {
    "\t" + Strip(IndentNewlines(text)) + "\n"
  }

  function HandlerHead(operationName: string): string {
    "nlohmann::json handle_" + operationName + "_operation(const nlohmann::json &msg,\n"
    + "\tconst std::function<nlohmann::json(" + "nlohmann::json &)> &executeQuery) {\n"
  }

  /** The check for an operation without parameters: it constructs the exception but never throws it. */
  function ZeroParameterGuard(operationName: string): string {
    "\tif (msg.contains(\"parameter\")) {\n"
    + "\t\t::Mumble::JsonBridge::Messages" + "::InvalidMessageException(\"Operation \\\"" + operationName
    + "\\\" does not take any parameter\");\n"
    + "\t}\n"
  }

  /** The handler's parameter part: the indented processing, or the guard when none are declared. */
  function HandlerParameters(op: OperationSpec): Result<string, GenError> {
    if op.parameter.Some? then
      var p := ParameterProcessingText(op.parameter.value, "msg", op.operation);
      if p.Failure? then p else Success(Indented(p.value))
    else Success(ZeroParameterGuard(op.operation))
  }

  /** The handler's dependency part: the indented processing, or nothing. */
  function HandlerDependencies(op: OperationSpec): Result<string, GenError> {
    if op.depends.Some? then
      var d := DependencyProcessingText(op.depends.value, op.operation);
      if d.Failure? then d else Success(Indented(d.value))
    else Success("")
  }

  /** One handle_<op>_operation function: parameters, then dependencies, then the execute call. */
  function HandlerText(position: nat, op: OperationSpec): Result<string, GenError> {
    var params := HandlerParameters(op);
    if params.Failure? then Failure(params.error)
    else
      var deps := HandlerDependencies(op);
      if deps.Failure? then Failure(deps.error)
      else
        var exec := ExecuteStatementText(op.executes);
        if exec.Failure? then Failure(exec.error)
        else
          Success(HandlerHead(op.operation) + params.value + "\n" + deps.value + "\n" + "\n"
                  + "\t// Now actually execute the operation\n" + "\t" + Strip(IndentNewlines(exec.value)) + "\n"
                  + "}\n" + "\n")
  }

  /** The notice and the includes that follow the license header. */
  function SourceBanner(): string {
    "// This file was auto-generated by " + "scripts/generate_CLI_operations.py. DO " + "NOT EDIT MANUALLY!\n"
    + "\n"
    + "#include \"handleOperation.h\"\n"
    + "\n"
    + "#include <mumble/json_bridge/messages/" + "Message.h>\n"
    + "\n"
  }

  /** Everything main writes before the handlers; the license header carries the current year. */
  function SourcePrelude(licenseHeader: string): string {
    licenseHeader + "\n" + SourceBanner() + ApiResponseCheckText() + "\n"
  }

  /**
   * The prelude is the license header followed by a text that does not depend on it, and it
   * ends with the definition of checkAPIResponse, so every handler after it can call that
   * function.
   */
  lemma SourcePreludeFrames(licenseHeader: string)
    ensures SourcePrelude(licenseHeader)[..|licenseHeader|] == licenseHeader
    ensures SourcePrelude(licenseHeader)[|licenseHeader|..] == SourcePrelude("")
    ensures var p := SourcePrelude(licenseHeader);
            var check := ApiResponseCheckText() + "\n";
            |check| <= |p| && p[|p| - |check|..] == check
  {
  }

  /** Different license headers give different preludes. */
  lemma SourcePreludeDeterminesHeader(first: string, second: string)
    ensures SourcePrelude(first) == SourcePrelude(second) <==> first == second
  {
    SourcePreludeFrames(first);
    SourcePreludeFrames(second);
  }

  function Names(ops: seq<OperationSpec>): (r: seq<string>)
    ensures |r| == |ops|
  {
    seq(|ops|, i requires 0 <= i < |ops| => ops[i].operation)
  }


  /** The parameter part of main's loop body: the indented processing, or the zero-parameter guard. */
  method GenerateHandlerParameters(op: OperationSpec) returns (r: Result<string, GenError>)
    ensures r == HandlerParameters(op)
  {
    if op.parameter.Some? {
      var processing := GenerateParameterProcessing(op.parameter.value, "msg", op.operation);
      if processing.Failure? {
        return Failure(processing.error);
      }
      r := Success("\t" + Strip(IndentNewlines(processing.value)) + "\n");
    } else {
      var params := "\tif (msg.contains(\"parameter\")) {\n";
      params := params + "\t\t::Mumble::JsonBridge::Messages" + "::InvalidMessageException(\"Operation \\\"" + op.operation
                + "\\\" does not take any parameter\");\n";
      params := params + "\t}\n";
      r := Success(params);
    }
  }

  /** The dependency part of main's loop body: the indented processing, or nothing. */
  method GenerateHandlerDependencies(op: OperationSpec) returns (r: Result<string, GenError>)
    ensures r == HandlerDependencies(op)
  {
    r := Success("");
    if op.depends.Some? {
      var processing := GenerateDependencyProcessing(op.depends.value, op.operation);
      if processing.Failure? {
        return Failure(processing.error);
      }
      r := Success("\t" + Strip(IndentNewlines(processing.value)) + "\n");
    }
  }

  /** The body of main's loop for one operation: its handle_<op>_operation function. */
  method GenerateHandler(position: nat, op: OperationSpec) returns (r: Result<string, GenError>)
    ensures r == HandlerText(position, op)
  {
    var generated := "nlohmann::json handle_" + op.operation + "_operation(const " + "nlohmann::json &msg,\n";
    generated := generated + "\tconst std::function<nlohmann::json(" + "nlohmann::json &)> &executeQuery) {\n";
    assert generated == HandlerHead(op.operation);
    var params := GenerateHandlerParameters(op);
    if params.Failure? {
      return Failure(params.error);
    }
    generated := generated + params.value;
    generated := generated + "\n";
    var deps := GenerateHandlerDependencies(op);
    if deps.Failure? {
      return Failure(deps.error);
    }
    generated := generated + deps.value;
    generated := generated + "\n";
    generated := generated + "\n";
    generated := generated + "\t// Now actually execute the operation\n";
    var execute := GenerateExecuteStatement(op.executes);
    if execute.Failure? {
      return Failure(execute.error);
    }
    generated := generated + "\t" + Strip(IndentNewlines(execute.value)) + "\n";
    generated := generated + "}\n";
    generated := generated + "\n";
    r := Success(generated);
  }

  /** The handlers of all operations, in order. */
  function HandlersText(ops: seq<OperationSpec>): Result<string, GenError> {
    var handlers := Collect(ops, HandlerText);
    if handlers.Failure? then Failure(handlers.error) else Success(Concat(handlers.value))
  }

  /** The generated source: the prelude, a handler per operation in load order, the dispatcher. */
  function SourceText(licenseHeader: string, ops: seq<OperationSpec>): Result<string, GenError> {
    var handlers := HandlersText(ops);
    if handlers.Failure? then Failure(handlers.error)
    else Success(SourcePrelude(licenseHeader) + handlers.value + DelegateText(Names(ops)))
  }

  /** One more operation adds its name to the dispatcher's list. */
  lemma NamesStep(ops: seq<OperationSpec>, i: nat)
    requires i < |ops|
    ensures Names(ops[..i + 1]) == Names(ops[..i]) + [ops[i].operation]
  {
  }

  /**
   * main's loop over the operations of all YAML files in the order they are loaded: each
   * operation's handler is appended and its name collected for the dispatcher.
   */
  method GenerateHandlers(ops: seq<OperationSpec>) returns (r: Result<string, GenError>, operations: seq<string>)
    ensures r == HandlersText(ops)
    ensures r.Success? ==> operations == Names(ops)
  {
    var generated := "";
    operations := [];
    for i := 0 to |ops|
      invariant operations == Names(ops[..i])
      invariant Collect(ops[..i], HandlerText).Success?
      invariant generated == Concat(Collect(ops[..i], HandlerText).value)
    {
      var currentOp := ops[i];
      var operationName := currentOp.operation;
      NamesStep(ops, i);
      operations := operations + [operationName];
      CollectStep(ops, HandlerText, i);
      var handler := GenerateHandler(i, currentOp);
      if handler.Failure? {
        return Failure(handler.error), operations;
      }
      ConcatAppend(Collect(ops[..i], HandlerText).value, handler.value);
      generated := generated + handler.value;
    }
    assert ops[..|ops|] == ops;
    r := Success(generated);
  }

  /** The generating part of main: the prelude, the handlers, the dispatcher. */
  method GenerateSource(licenseHeader: string, ops: seq<OperationSpec>) returns (r: Result<string, GenError>)
    ensures r == SourceText(licenseHeader, ops)
  {
    var generated := SourcePrelude(licenseHeader);
    var handlers, operations := GenerateHandlers(ops);
    if handlers.Failure? {
      return Failure(handlers.error);
    }
    generated := generated + handlers.value;
    var delegate := GenerateDelegateFunction(operations);
    generated := generated + delegate;
    r := Success(generated);
  }
}
