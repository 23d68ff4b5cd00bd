/**
 * JSONInstruction::execute of the command-line client: a message with message_type
 * "api_call" is forwarded to the bridge as it is, one with "operation" is handed to the
 * generated handleOperation, whose queries go to the bridge the same way. The operations the
 * client was generated from, the evaluation of their pasted C++ and JSONInterface::process
 * are parameters.
 */
module JsonInstruction {
  import opened Wrappers
  import opened Json
  import opened Messages
  import opened StrUtil
  import opened OperationSpecs
  import opened Generator
  import opened GeneratorProperties
  import opened GeneratedRuntime

  function UnknownOptionText(option: string): string {
    "Unknown \"message_type\" " + "option \"" + option + "\""
  }

  /** m_msg["message"] on the non-const member: a missing member reads as null. */
  function MessageBody(msg: Json): Json
    requires msg.Obj?
  {
    if "message" in msg.fields then msg.fields["message"] else Null
  }

  /** JSONInstruction::execute: the string message_type picks the route, case-sensitively. */
  function Execute(ops: seq<OperationSpec>, msg: Json, evaluate: Evaluator, process: QueryExecutor): (r: Run<Json>)
    requires forall i :: 0 <= i < |ops| ==> ValidOperation(ops[i])
    ensures AssertField(msg, "message_type", KString).Fail?
            ==> r == Run(Failure(MessageFault(AssertField(msg, "message_type", KString).error.what)), [])
    ensures r.outcome.Success? ==> r.queries != [] && r.outcome.value == process(r.queries[|r.queries| - 1])
    ensures AssertField(msg, "message_type", KString).Pass?
              && StringField(msg, "message_type") != "api_call" && StringField(msg, "message_type") != "operation"
            ==> r == Run(Failure(MessageFault(UnknownOptionText(StringField(msg, "message_type")))), [])
  {
    var guard := AssertField(msg, "message_type", KString);
    if guard.Fail? then Run(Failure(MessageFault(guard.error.what)), [])
    else
      var messageType := StringField(msg, "message_type");
      if messageType == "api_call" then Run(Success(process(msg)), [msg])
      else if messageType == "operation" then
        var r := HandleOperation(ops, MessageBody(msg), evaluate, process);
        HandlerResultIsLastResponse(ops, MessageBody(msg), evaluate, process);
        r
      else Run(Failure(MessageFault(UnknownOptionText(messageType))), [])
  }

  /** Whatever operation runs, a successful result is the response to the last query it sent. */
  lemma HandlerResultIsLastResponse(ops: seq<OperationSpec>, msg: Json, evaluate: Evaluator, execute: QueryExecutor)
    requires forall i :: 0 <= i < |ops| ==> ValidOperation(ops[i])
    ensures var r := HandleOperation(ops, msg, evaluate, execute);
            r.outcome.Success? ==> r.queries != [] && r.outcome.value == execute(r.queries[|r.queries| - 1])
  {
    if Contains(msg, "operation") && msg.fields["operation"].Str? {
      var i := FirstIndexOf(Names(ops), msg.fields["operation"].s);
      if i.Some? {
        HandlerReturnsLastResponse(ops[i.value], msg, evaluate, execute);
      }
    }
  }

  /** An "api_call" message reaches the bridge unchanged, and its response is the result. */
  lemma ApiCallForwardedUnchanged(ops: seq<OperationSpec>, msg: Json, evaluate: Evaluator, process: QueryExecutor)
    requires forall i :: 0 <= i < |ops| ==> ValidOperation(ops[i])
    requires Contains(msg, "message_type") && msg.fields["message_type"] == Str("api_call")
    ensures Execute(ops, msg, evaluate, process) == Run(Success(process(msg)), [msg])
  {
  }

  /**
   * An "operation" message runs the operation named in its body; a message without a body
   * is treated as a null body and so is rejected for its missing "operation", before any query.
   */
  lemma OperationMessageRoutesToHandler(ops: seq<OperationSpec>, msg: Json, evaluate: Evaluator, process: QueryExecutor)
    requires forall i :: 0 <= i < |ops| ==> ValidOperation(ops[i])
    requires Contains(msg, "message_type") && msg.fields["message_type"] == Str("operation")
    ensures Contains(msg, "message") ==>
              Execute(ops, msg, evaluate, process) == HandleOperation(ops, msg.fields["message"], evaluate, process)
    ensures !Contains(msg, "message") ==>
              Execute(ops, msg, evaluate, process) == Run(Failure(OperationFault(MISSING_OPERATION_TEXT)), [])
  {
  }

  /**
   * Whatever the client sends for an operation is an api_call message the bridge's basic
   * format check accepts as an API call.
   */
  lemma OperationQueriesAreApiCalls(ops: seq<OperationSpec>, msg: Json, evaluate: Evaluator, process: QueryExecutor)
    requires forall i :: 0 <= i < |ops| ==> ValidOperation(ops[i])
    requires Contains(msg, "message_type") && msg.fields["message_type"] == Str("operation")
    ensures forall q :: q in Execute(ops, msg, evaluate, process).queries ==> ParseBasicFormat(q) == Success(API_CALL)
  {
    forall q | q in Execute(ops, msg, evaluate, process).queries
      ensures ParseBasicFormat(q) == Success(API_CALL)
    {
      EnvelopeHasApiCallFormat(q);
    }
  }

  /**
   * The client compares message_type case-sensitively while the bridge parses it ignoring
   * case: a message the bridge would take as an API call is refused by the client when it is
   * spelled in capitals.
   */
  lemma ClientRoutingIsCaseSensitive(ops: seq<OperationSpec>, msg: Json, evaluate: Evaluator, process: QueryExecutor)
    requires forall i :: 0 <= i < |ops| ==> ValidOperation(ops[i])
    requires Contains(msg, "message_type") && msg.fields["message_type"] == Str("API_CALL")
    ensures TypeFromString("API_CALL") == Success(API_CALL)
    ensures Execute(ops, msg, evaluate, process) == Run(Failure(MessageFault(UnknownOptionText("API_CALL"))), [])
  {
    assert EqualsIgnoreCase("API_CALL", ToString(API_CALL));
    TypeFromStringIgnoresCase("API_CALL", ToString(API_CALL));
    TypeStringRoundTrip(API_CALL);
  }
}
