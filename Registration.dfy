/** Registration.cpp: the body of a registration message names the client's pipe and secret. */
module Registration {
  import opened Wrappers
  import opened Json
  import opened Messages

  /** A validated registration request: m_pipePath and m_secret. */
  datatype Registration = Registration(pipePath: string, secret: string) {
    /** Message::getType() of every Registration. */
    function Type(): MessageType {
      REGISTRATION
    }
  }

  /**
   * The Registration constructor: "pipe_path" is checked before "secret", both must be strings,
   * and the extracted fields are exactly the message's strings.
   */
  function ParseRegistration(body: Json): (r: Result<Registration, InvalidMessage>)
    ensures r.Success? <==> AssertField(body, "pipe_path", KString).Pass?
                            && AssertField(body, "secret", KString).Pass?
    ensures AssertField(body, "pipe_path", KString).Fail?
            ==> r == Failure(AssertField(body, "pipe_path", KString).error)
    ensures AssertField(body, "pipe_path", KString).Pass? && AssertField(body, "secret", KString).Fail?
            ==> r == Failure(AssertField(body, "secret", KString).error)
    ensures r.Success? ==> r.value.pipePath == StringField(body, "pipe_path")
                           && r.value.secret == StringField(body, "secret")
  {
    var pipeCheck := AssertField(body, "pipe_path", KString);
    if pipeCheck.Fail? then Failure(pipeCheck.error)
    else
      var secretCheck := AssertField(body, "secret", KString);
      if secretCheck.Fail? then Failure(secretCheck.error)
      else Success(Registration(StringField(body, "pipe_path"), StringField(body, "secret")))
  }

  /** A body that lacks both fields is reported for its pipe path. */
  lemma MissingBothReportsPipePath(body: Json)
    requires !Contains(body, "pipe_path") && !Contains(body, "secret")
    ensures ParseRegistration(body) == Failure(InvalidMessage(MissingFieldText("pipe_path")))
  {
  }
}
