/**
 * What generate_CLI_operations.py promises about the text it emits: exactly which operation
 * definitions it accepts, which error it reports for the others, the numbered names of the
 * dependency queries, and the shapes its trimming produces at the edges.
 */
module GeneratorProperties {
  import opened Wrappers
  import opened StrUtil
  import opened OperationSpecs
  import opened TypeMapper
  import opened Generator

  // ---------------------------------------------------------------- reference definitions

  /** The argument values an api call accepts, case by case: whatever is falsy, every boolean, any string. */
  predicate AcceptedValue(v: YamlValue) {
    match v
    case YStr(_) => true
    case YBool(_) => true
    case YNumber(nonZero) => !nonZero
    case YNull => true
    case YCollection(size) => size == 0
  }

  predicate ArgumentsAccepted(args: seq<ArgumentSpec>) {
    forall i :: 0 <= i < |args| ==> AcceptedValue(args[i].value)
  }

  /** A regular call pastes its arguments, so each of them must be a string. */
  predicate RegularArgumentsAccepted(f: FunctionSpec) {
    f.parameter.None? || forall i :: 0 <= i < |f.parameter.value| ==> f.parameter.value[i].value.YStr?
  }

  /** A dependency the generator can bind: a translatable type and a well-formed api or regular call. */
  predicate ValidAssignment(varType: string, f: FunctionSpec) {
    varType in KindTable
    && ((f.callType == "api" && ArgumentsAccepted(ArgumentsOf(f)))
        || (f.callType == "regular" && RegularArgumentsAccepted(f)))
  }

  predicate ValidParameters(parameter: seq<ParameterSpec>) {
    forall i :: 0 <= i < |parameter| ==> parameter[i].kind in KindTable
  }

  predicate ValidDependencies(dependencies: seq<DependencySpec>) {
    forall i :: 0 <= i < |dependencies| ==> ValidAssignment(dependencies[i].kind, dependencies[i].call)
  }

  predicate ValidExecute(execSpec: ExecuteSpec) {
    execSpec.call.Some? && execSpec.call.value.callType == "api" && ArgumentsAccepted(ArgumentsOf(execSpec.call.value))
  }

  /** An operation the generator turns into a handler. */
  predicate ValidOperation(op: OperationSpec) {
    (op.parameter.None? || ValidParameters(op.parameter.value))
    && (op.depends.None? || ValidDependencies(op.depends.value))
    && ValidExecute(op.executes)
  }

  // ---------------------------------------------------------------- argument values

  /** The normalisation accepts exactly the values of the reference table. */
  lemma NormalisationAcceptsIff(v: YamlValue)
    ensures NormalisedValue(v).Success? <==> AcceptedValue(v)
  {
  }

  /** The envelope is generated exactly when every argument value is accepted; otherwise the assert fails. */
  lemma ApiCallSucceedsIff(queryName: string, responseName: string, functionName: string, parameter: seq<ArgumentSpec>)
    ensures ApiFunctionCallText(queryName, responseName, functionName, parameter).Success? <==> ArgumentsAccepted(parameter)
    ensures ApiFunctionCallText(queryName, responseName, functionName, parameter).Failure?
            ==> ApiFunctionCallText(queryName, responseName, functionName, parameter).error == AssertionError
  {
    CollectSucceedsIff(parameter, ArgumentLine);
    if parameter != [] && Collect(parameter, ArgumentLine).Failure? {
      CollectFailureIsPieceFailure(parameter, ArgumentLine);
    }
  }

  // ---------------------------------------------------------------- parameter processing

  lemma ParameterProcessingSucceedsIff(parameter: seq<ParameterSpec>, messageName: string, operationName: string)
    ensures ParameterProcessingText(parameter, messageName, operationName).Success? <==> ValidParameters(parameter)
  {
    CollectSucceedsIff(parameter, ParameterBlock);
  }

  /** Parameters are translated in declaration order: the first untranslatable type is the one reported. */
  lemma ParameterErrorNamesFirstBadType(parameter: seq<ParameterSpec>, messageName: string, operationName: string, k: nat)
    requires k < |parameter| && parameter[k].kind !in KindTable
    requires forall j :: 0 <= j < k ==> parameter[j].kind in KindTable
    ensures ParameterProcessingText(parameter, messageName, operationName)
            == Failure(RuntimeError(UnconvertibleText(parameter[k].kind)))
  {
    CollectFirstError(parameter, ParameterBlock, k);
  }

  // ---------------------------------------------------------------- dependencies

  lemma FunctionAssignmentSucceedsIff(varName: string, varType: string, f: FunctionSpec, counter: nat)
    ensures FunctionAssignmentText(varName, varType, f, counter).Success? <==> ValidAssignment(varType, f)
    ensures f.callType != "api" && f.callType != "regular"
            ==> FunctionAssignmentText(varName, varType, f, counter) == Failure(RuntimeError(UnknownCallTypeText(f.callType)))
  {
    ApiCallSucceedsIff(QueryName(counter), ResponseName(counter), f.name, ArgumentsOf(f));
    if f.callType == "regular" && f.parameter.Some? && f.parameter.value != [] {
      CollectSucceedsIff(f.parameter.value, RegularArgument);
    }
  }

  /** One dependency's block is generated exactly when its assignment is valid. */
  lemma DependencyBlockSucceedsIff(position: nat, d: DependencySpec)
    ensures DependencyBlock(position, d).Success? <==> ValidAssignment(d.kind, d.call)
  {
    FunctionAssignmentSucceedsIff(d.name, d.kind, d.call, position + 1);
  }

  lemma DependencyProcessingSucceedsIff(dependencies: seq<DependencySpec>, operationName: string)
    ensures DependencyProcessingText(dependencies, operationName).Success? <==> ValidDependencies(dependencies)
  {
    CollectSucceedsIff(dependencies, DependencyBlock);
    forall i | 0 <= i < |dependencies|
      ensures DependencyBlock(i, dependencies[i]).Success? <==> ValidAssignment(dependencies[i].kind, dependencies[i].call)
    {
      DependencyBlockSucceedsIff(i, dependencies[i]);
    }
  }

  /** The k-th dependency (counting from 1) talks to the bridge through query<k> and response<k> only. */
  lemma QueryNamesDistinct(m: nat, n: nat)
    requires m != n
    ensures QueryName(m) != QueryName(n)
    ensures ResponseName(m) != ResponseName(n)
  {
    assert QueryName(m)[5..] == NatToString(m) && QueryName(n)[5..] == NatToString(n);
    assert ResponseName(m)[8..] == NatToString(m) && ResponseName(n)[8..] == NatToString(n);
    if NatToString(m) == NatToString(n) {
      NatToStringInjective(m, n);
    }
  }

  /** A regular call without a "parameter" key is left open: its text ends with the "(". */
  lemma RegularCallWithoutParameterIsUnclosed(varName: string, varType: string, f: FunctionSpec, counter: nat)
    requires f.callType == "regular" && f.parameter.None? && varType in KindTable
    ensures FunctionAssignmentText(varName, varType, f, counter).Success?
    ensures var text := FunctionAssignmentText(varName, varType, f, counter).value;
            text != [] && text[|text| - 1] == '('
  {
  }

  /**
   * A regular call with an empty "parameter" list has no ", " to trim, so the trimming
   * removes the "(" and the last character of the function's name instead.
   */
  lemma RegularCallWithEmptyListLosesNameChar(varName: string, varType: string, f: FunctionSpec, counter: nat)
    requires f.callType == "regular" && f.parameter == Some([]) && varType in KindTable && f.name != []
    ensures FunctionAssignmentText(varName, varType, f, counter)
            == Success(KindTable[varType] + " " + varName + " = " + f.name[..|f.name| - 1] + ");\n")
  {
    var head := KindTable[varType] + " " + varName + " = " + f.name + "(";
    assert head[..|head| - 2] == KindTable[varType] + " " + varName + " = " + f.name[..|f.name| - 1];
  }

  // ---------------------------------------------------------------- the execute statement

  lemma ExecuteStatementSucceedsIff(execSpec: ExecuteSpec)
    ensures ExecuteStatementText(execSpec).Success? <==> ValidExecute(execSpec)
    ensures execSpec.call.None? ==> ExecuteStatementText(execSpec) == Failure(RuntimeError(MISSING_EXECUTE_FUNCTION_TEXT))
    ensures execSpec.call.Some? && execSpec.call.value.callType != "api"
            ==> ExecuteStatementText(execSpec) == Failure(RuntimeError(NON_API_EXECUTE_TEXT))
  {
    if execSpec.call.Some? {
      ApiCallSucceedsIff("operationQuery", "result", execSpec.call.value.name, ArgumentsOf(execSpec.call.value));
    }
  }

  // ---------------------------------------------------------------- whole operations

  lemma HandlerSucceedsIff(position: nat, op: OperationSpec)
    ensures HandlerText(position, op).Success? <==> ValidOperation(op)
  {
    if op.parameter.Some? {
      ParameterProcessingSucceedsIff(op.parameter.value, "msg", op.operation);
    }
    if op.depends.Some? {
      DependencyProcessingSucceedsIff(op.depends.value, op.operation);
    }
    ExecuteStatementSucceedsIff(op.executes);
  }

  /** The source is generated exactly when every operation of every file is valid. */
  lemma GenerationSucceedsIff(licenseHeader: string, ops: seq<OperationSpec>)
    ensures SourceText(licenseHeader, ops).Success? <==> forall i :: 0 <= i < |ops| ==> ValidOperation(ops[i])
  {
    CollectSucceedsIff(ops, HandlerText);
    forall i | 0 <= i < |ops|
      ensures HandlerText(i, ops[i]).Success? <==> ValidOperation(ops[i])
    {
      HandlerSucceedsIff(i, ops[i]);
    }
  }

  /** Operations are generated in load order, so the first invalid one decides the error. */
  lemma GenerationFirstError(licenseHeader: string, ops: seq<OperationSpec>, k: nat)
    requires k < |ops| && !ValidOperation(ops[k])
    requires forall j :: 0 <= j < k ==> ValidOperation(ops[j])
    ensures HandlerText(k, ops[k]).Failure?
    ensures SourceText(licenseHeader, ops) == Failure(HandlerText(k, ops[k]).error)
  {
    HandlerSucceedsIff(k, ops[k]);
    forall j | 0 <= j < k
      ensures HandlerText(j, ops[j]).Success?
    {
      HandlerSucceedsIff(j, ops[j]);
    }
    CollectFirstError(ops, HandlerText, k);
  }

  // ---------------------------------------------------------------- the dispatcher

  /** Without operations the chain is empty and " else {" follows the prelude's closing brace directly. */
  lemma DispatcherWithoutOperationsDangles()
    ensures DelegateText([]) == DelegateHead() + DelegateTail()
    ensures DelegateTail()[..7] == " else {"
  {
  }
}
