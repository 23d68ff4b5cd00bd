/**
 * Message.h and Message.cpp: the field guard every message check is built from, the three
 * message types with their string forms, and the basic shape every bridge message must have.
 */
module Messages {
  import opened Wrappers
  import opened Json
  import opened StrUtil

  /** An InvalidMessageException, with the text its what() returns. */
  datatype InvalidMessage = InvalidMessage(what: string)

  function MissingFieldText(name: string): string {
    "The given message " + "does not specify a \"" + name + "\" field"
  }

  /** The text for a present field of the wrong type; the type is named by its token. */
  function WrongTypeText(name: string, token: string): string {
    "The \"" + name + "\" field is expected " + "to be of type " + token
  }

  /**
   * MESSAGE_ASSERT_FIELD(msg, name, type). It passes exactly when the field is there and has
   * the type; an absent field is always reported as absent, whatever the type asked for.
   */
  function AssertField(msg: Json, name: string, kind: JsonKind): (r: Outcome<InvalidMessage>)
    ensures r.Pass? <==> Contains(msg, name) && HasKind(msg.fields[name], kind)
    ensures !Contains(msg, name) ==> r == Fail(InvalidMessage(MissingFieldText(name)))
    ensures Contains(msg, name) && !HasKind(msg.fields[name], kind)
            ==> r == Fail(InvalidMessage(WrongTypeText(name, kind.Token())))
  {
    if !Contains(msg, name) then Fail(InvalidMessage(MissingFieldText(name)))
    else if !HasKind(msg.fields[name], kind) then Fail(InvalidMessage(WrongTypeText(name, kind.Token())))
    else Pass
  }

  function Slice(whole: string, from: nat, len: nat): string
    requires from + len <= |whole|
  {
    whole[from..from + len]
  }

  predicate IsSubstring(part: string, whole: string) {
    exists i: nat :: i + |part| <= |whole| && Slice(whole, i, |part|) == part
  }

  /** A text built around a part contains that part. */
  lemma PartOfText(lead: string, part: string, tail: string)
    ensures IsSubstring(part, lead + part + tail)
  {
    assert Slice(lead + part + tail, |lead|, |part|) == part;
  }

  /** The text for an absent field names it and starts with "The given". */
  lemma MissingFieldTextNamesField(name: string)
    ensures IsSubstring(name, MissingFieldText(name))
    ensures MissingFieldText(name)[..9] == "The given"
  {
    var lead := "The given message " + "does not specify a \"";
    assert MissingFieldText(name) == lead + name + "\" field";
    PartOfText(lead, name, "\" field");
  }

  /** The text for a field of the wrong type names the field and the type, and starts otherwise. */
  lemma WrongTypeTextNamesField(name: string, token: string)
    ensures IsSubstring(name, WrongTypeText(name, token))
    ensures IsSubstring(token, WrongTypeText(name, token))
    ensures WrongTypeText(name, token)[..9] != "The given"
  {
    var lead := "The \"";
    var middle := "\" field is expected " + "to be of type ";
    var what := WrongTypeText(name, token);
    assert what == lead + name + (middle + token);
    PartOfText(lead, name, middle + token);
    assert what == (lead + name + middle) + token + "";
    PartOfText(lead + name + middle, token, "");
    assert what[4] == '"';
  }

  /**
   * Whatever the guard rejects, its message names the field, and it tells the two failures
   * apart: the type is named only when the field is present.
   */
  lemma AssertFieldErrorNamesField(msg: Json, name: string, kind: JsonKind)
    requires AssertField(msg, name, kind).Fail?
    ensures IsSubstring(name, AssertField(msg, name, kind).error.what)
    ensures IsSubstring(kind.Token(), AssertField(msg, name, kind).error.what) <== Contains(msg, name)
    ensures AssertField(msg, name, kind).error.what[..9] == "The given" <==> !Contains(msg, name)
  {
    if !Contains(msg, name) {
      MissingFieldTextNamesField(name);
    } else {
      WrongTypeTextNamesField(name, kind.Token());
    }
  }



  /** The three kinds of message the bridge understands. */
  datatype MessageType = REGISTRATION | API_CALL | DISCONNECT

  /** to_string(MessageType): note the capital R of "Registration". */
  function ToString(t: MessageType): string {
    match t
    case REGISTRATION => "Registration"
    case API_CALL => "api_call"
    case DISCONNECT => "disconnect"
  }

  /** The text of the std::invalid_argument thrown for an unknown type string. */
  function UnknownTypeText(s: string): string {
    "Unknown message " + "type \"" + s + "\""
  }

  /**
   * type_from_string: a case-insensitive comparison against the three names, in the order
   * registration, api_call, disconnect; anything else raises std::invalid_argument.
   */
  function TypeFromString(s: string): (r: Result<MessageType, string>)
    ensures r.Success? ==> EqualsIgnoreCase(s, ToString(r.value))
    ensures r.Failure? <==> forall t :: !EqualsIgnoreCase(s, ToString(t))
    ensures r.Failure? ==> r.error == UnknownTypeText(s)
  {
    if EqualsIgnoreCase(s, "registration") then Success(REGISTRATION)
    else if EqualsIgnoreCase(s, "api_call") then Success(API_CALL)
    else if EqualsIgnoreCase(s, "disconnect") then Success(DISCONNECT)
    else Failure(UnknownTypeText(s))
  }

  lemma EqualsIgnoreCaseTransitive(a: string, b: string, c: string)
    requires EqualsIgnoreCase(a, b) && EqualsIgnoreCase(b, c)
    ensures EqualsIgnoreCase(a, c)
  {
  }

  lemma EqualsIgnoreCaseSymmetric(a: string, b: string)
    requires EqualsIgnoreCase(a, b)
    ensures EqualsIgnoreCase(b, a)
  {
  }

  /** Parsing ignores case: two spellings that differ only in case parse alike. */
  lemma TypeFromStringIgnoresCase(s: string, s': string)
    requires EqualsIgnoreCase(s, s')
    ensures TypeFromString(s).Success? <==> TypeFromString(s').Success?
    ensures TypeFromString(s).Success? ==> TypeFromString(s).value == TypeFromString(s').value
  {
    EqualsIgnoreCaseSymmetric(s, s');
    if TypeFromString(s).Success? {
      EqualsIgnoreCaseTransitive(s', s, ToString(TypeFromString(s).value));
    }
    if TypeFromString(s').Success? {
      EqualsIgnoreCaseTransitive(s, s', ToString(TypeFromString(s').value));
    }
  }

  /** Every type survives the round trip through its string form, "Registration" included. */
  lemma TypeStringRoundTrip(t: MessageType)
    ensures TypeFromString(ToString(t)) == Success(t)
  {
    assert EqualsIgnoreCase(ToString(t), ToString(t));
  }

  function NotAnObjectText(): string {
    "The given message " + "is not a JSON object"
  }

  function UnknownMessageTypeText(value: string): string {
    "The given " + "message_type \"" + value + "\" is unknown"
  }

  /**
   * parseBasicFormat: the message must be an object with a string message_type naming one of
   * the three types, and every type but DISCONNECT needs an object "message" body.
   */
  function ParseBasicFormat(msg: Json): (r: Result<MessageType, InvalidMessage>)
    ensures !msg.Obj? ==> r == Failure(InvalidMessage(NotAnObjectText()))
    ensures msg.Obj? && AssertField(msg, "message_type", KString).Fail?
            ==> r == Failure(AssertField(msg, "message_type", KString).error)
    ensures msg.Obj? && AssertField(msg, "message_type", KString).Pass?
              && TypeFromString(StringField(msg, "message_type")).Failure?
            ==> r == Failure(InvalidMessage(UnknownMessageTypeText(StringField(msg, "message_type"))))
    ensures r.Success? <==>
              && msg.Obj?
              && AssertField(msg, "message_type", KString).Pass?
              && TypeFromString(StringField(msg, "message_type")).Success?
              && (TypeFromString(StringField(msg, "message_type")).value != DISCONNECT
                  ==> AssertField(msg, "message", KObject).Pass?)
    ensures r.Success? ==> r.value == TypeFromString(StringField(msg, "message_type")).value
  {
    if !msg.Obj? then Failure(InvalidMessage(NotAnObjectText()))
    else
      var check := AssertField(msg, "message_type", KString);
      if check.Fail? then Failure(check.error)
      else
        var parsed := TypeFromString(StringField(msg, "message_type"));
        if parsed.Failure? then
          Failure(InvalidMessage(UnknownMessageTypeText(StringField(msg, "message_type"))))
        else if parsed.value != DISCONNECT && AssertField(msg, "message", KObject).Fail? then
          Failure(AssertField(msg, "message", KObject).error)
        else Success(parsed.value)
  }
}
