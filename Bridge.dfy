/**
 * Bridge.cpp: the bridge's registry of clients and the processing of one incoming message.
 * Writes to a client's named pipe are appended to an outbox; whether a registering client's
 * pipe exists on the filesystem is a parameter; the Mumble API is a parameter of the bridge.
 */
module Bridge {
  import opened Wrappers
  import opened Json
  import opened Messages
  import opened Registration
  import opened ApiCall
  import opened BridgeClient

  /** One message written to a named pipe: the pipe's path and the JSON written to it. */
  datatype Write = Write(pipe: string, message: Json)

  /** The bridge's mutable state: m_clients, s_nextClientID and everything written so far. */
  datatype BridgeState = BridgeState(clients: map<ClientId, BridgeClient>, nextClientId: ClientId, outbox: seq<Write>)

  /**
   * get<client_id_t>() on a JSON value: numbers and booleans are cast to a 32-bit unsigned
   * value (wrapping modulo 2^32), anything else makes nlohmann throw a type_error.
   */
  function ClientIdOf(j: Json): (r: Option<ClientId>)
    ensures r.Some? <==> j.Int? || j.Unsigned? || j.Float? || j.Bool?
    ensures HasKind(j, KNumberInteger) ==> r.Some?
    ensures j.Int? && 0 <= j.i < CLIENT_ID_LIMIT ==> r == Some(j.i)
    ensures j.Unsigned? && j.n < CLIENT_ID_LIMIT ==> r == Some(j.n)
    ensures j.Int? && r.Some? ==> (r.value - j.i) % CLIENT_ID_LIMIT == 0
    ensures j.Unsigned? && r.Some? ==> (r.value - j.n) % CLIENT_ID_LIMIT == 0
    ensures j.Bool? ==> r == Some(if j.b then 1 else 0)
  {
    match j
    case Int(i) => Some(i % CLIENT_ID_LIMIT)
    case Unsigned(n) => Some(n % CLIENT_ID_LIMIT)
    case Float(whole) => Some(whole % CLIENT_ID_LIMIT)
    case Bool(b) => Some(if b then 1 else 0)
    case _ => None
  }

  const INVALID_CLIENT_ID_TEXT := "Invalid client ID"
  const PERMISSION_DENIED_TEXT := "Permission denied (invalid secret)"

  /** The error reply {response_type: "error", secret, response: {error_message}}. */
  function ErrorReply(bridgeSecret: string, what: string): Json {
    Obj(map["response_type" := Str("error"), "secret" := Str(bridgeSecret),
            "response" := Obj(map["error_message" := Str(what)])])
  }

  /** The registration reply {response_type: "registration", secret, response: {client_id}}. */
  function RegistrationReply(bridgeSecret: string, id: ClientId): Json {
    Obj(map["response_type" := Str("registration"), "secret" := Str(bridgeSecret),
            "response" := Obj(map["client_id" := Unsigned(id)])])
  }

  /** The disconnect reply {response_type: "disconnect", secret}, without a response body. */
  function DisconnectReply(bridgeSecret: string): Json {
    Obj(map["response_type" := Str("disconnect"), "secret" := Str(bridgeSecret)])
  }

  /** What processMessage ends up doing with one message. */
  datatype Verdict =
    | Register(registration: Registration)
    | Call(id: ClientId, call: ApiCall)
    | Disconnect(id: ClientId)
    | Reject(id: ClientId, error: InvalidMessage)   // the InvalidMessageException and the id known when it was thrown
    | Escape                                        // a type_error leaves processMessage

  /**
   * The checks of processMessage in their order: the basic format, then (for every type but
   * REGISTRATION) an integer client_id, a string secret, a registered client and a matching
   * secret, then the type's own body check.
   */
  function Classify(functions: ApiFunctions, clients: map<ClientId, BridgeClient>, msg: Json): (v: Verdict)
    ensures v.Call? ==> v.id in clients
    ensures v.Disconnect? ==> v.id in clients
  {
    var parsed := ParseBasicFormat(msg);
    if parsed.Failure? then
      if Contains(msg, "client_id") then
        match ClientIdOf(msg.fields["client_id"])
        case None => Escape
        case Some(id) => Reject(id, parsed.error)
      else Reject(INVALID_CLIENT_ID, parsed.error)
    else if parsed.value == REGISTRATION then
      var registration := ParseRegistration(msg.fields["message"]);
      if registration.Failure? then Reject(INVALID_CLIENT_ID, registration.error)
      else Register(registration.value)
    else
      var idCheck := AssertField(msg, "client_id", KNumberInteger);
      if idCheck.Fail? then Reject(INVALID_CLIENT_ID, idCheck.error)
      else
        var id := ClientIdOf(msg.fields["client_id"]).value;
        var secretCheck := AssertField(msg, "secret", KString);
        if secretCheck.Fail? then Reject(id, secretCheck.error)
        else if id !in clients then Reject(id, InvalidMessage(INVALID_CLIENT_ID_TEXT))
        else if !clients[id].SecretMatches(StringField(msg, "secret")) then
          Reject(id, InvalidMessage(PERMISSION_DENIED_TEXT))
        else if parsed.value == API_CALL then
          var call := ParseApiCall(functions, msg.fields["message"]);
          if call.Failure? then Reject(id, call.error) else Call(id, call.value)
        else Disconnect(id)
  }

  /** handleRegistration when the pipe exists: the counter's ID goes to the new client. */
  function Registered(s: BridgeState, registration: Registration, bridgeSecret: string): BridgeState {
    var id := s.nextClientId;
    BridgeState(s.clients[id := NewClient(registration.pipePath, registration.secret, id)],
                (id + 1) % CLIENT_ID_LIMIT,
                s.outbox + [Write(registration.pipePath, RegistrationReply(bridgeSecret, id))])
  }

  /** The catch block of processMessage: only a registered client with a valid ID hears of it. */
  function Reported(s: BridgeState, id: ClientId, error: InvalidMessage, bridgeSecret: string): BridgeState {
    if id != INVALID_CLIENT_ID && id in s.clients then
      s.(outbox := s.outbox + [Write(s.clients[id].pipePath, ErrorReply(bridgeSecret, error.what))])
    else s
  }

  datatype StepResult = StepResult(state: BridgeState, escaped: bool)

  /** The effect of processMessage on the bridge's state. */
  function Step(api: MumbleApi, bridgeSecret: string, s: BridgeState, msg: Json, pipeExists: bool): StepResult {
    match Classify(api.functions, s.clients, msg)
    case Escape => StepResult(s, true)
    case Reject(id, error) => StepResult(Reported(s, id, error, bridgeSecret), false)
    case Register(registration) =>
      StepResult(if pipeExists then Registered(s, registration, bridgeSecret) else s, false)
    case Call(id, call) =>
      StepResult(s.(outbox := s.outbox + [Write(s.clients[id].pipePath, Execute(call, api, bridgeSecret))]), false)
    case Disconnect(id) =>
      StepResult(s.(clients := s.clients - {id},
                    outbox := s.outbox + [Write(s.clients[id].pipePath, DisconnectReply(bridgeSecret))]), false)
  }

  /**
   * The static s_nextClientID: one counter for the whole process, set to 0 once when the
   * program starts and shared by every bridge constructed afterwards.
   */
  class ClientIdCounter {
    var next: ClientId

    constructor ()
      ensures next == 0
    {
      next := 0;
    }
  }

  class Bridge {
    /** m_api */
    const api: MumbleApi
    /** m_secret, the bridge's own secret, generated once when the bridge starts. */
    const secret: string
    /** The process's s_nextClientID, which this bridge reads and advances. */
    const idCounter: ClientIdCounter
    /** m_clients */
    var clients: map<ClientId, BridgeClient>
    /** Every message written to a client pipe, in order. */
    var outbox: seq<Write>

    function State(): BridgeState
      reads this, idCounter
    {
      BridgeState(clients, idCounter.next, outbox)
    }

    /** The constructor leaves the shared counter where earlier bridges left it. */
    constructor (api: MumbleApi, secret: string, idCounter: ClientIdCounter)
      ensures this.api == api && this.secret == secret && this.idCounter == idCounter
      ensures State() == BridgeState(map[], idCounter.next, [])
    {
      this.api := api;
      this.secret := secret;
      this.idCounter := idCounter;
      clients := map[];
      outbox := [];
    }

    /** processMessage: returns whether an exception other than InvalidMessageException escaped. */
    method ProcessMessage(msg: Json, pipeExists: bool) returns (escaped: bool)
      modifies this, idCounter
      ensures State() == Step(api, secret, old(State()), msg, pipeExists).state
      ensures escaped == Step(api, secret, old(State()), msg, pipeExists).escaped
    {
      var id := INVALID_CLIENT_ID;
      var failure: Option<InvalidMessage> := None;
      escaped := false;
      var parsed := ParseBasicFormat(msg);
      if parsed.Failure? {
        // Recover the client's ID so that the error can be reported to it.
        if Contains(msg, "client_id") {
          var converted := ClientIdOf(msg.fields["client_id"]);
          if converted.None? {
            escaped := true;
            return;
          }
          id := converted.value;
        }
        failure := Some(parsed.error);
      } else {
        var kind := parsed.value;
        if kind != REGISTRATION {
          var idCheck := AssertField(msg, "client_id", KNumberInteger);
          if idCheck.Fail? {
            failure := Some(idCheck.error);
          } else {
            id := ClientIdOf(msg.fields["client_id"]).value;
            var secretCheck := AssertField(msg, "secret", KString);
            if secretCheck.Fail? {
              failure := Some(secretCheck.error);
            } else if id !in clients {
              failure := Some(InvalidMessage(INVALID_CLIENT_ID_TEXT));
            } else if !clients[id].SecretMatches(StringField(msg, "secret")) {
              failure := Some(InvalidMessage(PERMISSION_DENIED_TEXT));
            }
          }
        }
        if failure.None? {
          match kind
          case REGISTRATION =>
            var registration := ParseRegistration(msg.fields["message"]);
            if registration.Failure? {
              failure := Some(registration.error);
            } else {
              HandleRegistration(registration.value, pipeExists);
            }
          case API_CALL =>
            var call := ParseApiCall(api.functions, msg.fields["message"]);
            if call.Failure? {
              failure := Some(call.error);
            } else {
              HandleApiCall(clients[id], call.value);
            }
          case DISCONNECT =>
            HandleDisconnect(msg);
        }
      }
      if failure.Some? {
        ReportError(id, failure.value);
      }
    }

    /** handleRegistration: registers the client only if its pipe exists. */
    method HandleRegistration(registration: Registration, pipeExists: bool)
      modifies this, idCounter
      ensures State() == if pipeExists then Registered(old(State()), registration, secret) else old(State())
    {
      if pipeExists {
        var id := idCounter.next;
        idCounter.next := (idCounter.next + 1) % CLIENT_ID_LIMIT;
        clients := clients[id := NewClient(registration.pipePath, registration.secret, id)];
        outbox := outbox + [Write(clients[id].GetPipePath(), RegistrationReply(secret, id))];
      }
    }

    /** handleAPICall: the API's response goes back to the calling client as it is. */
    method HandleApiCall(client: BridgeClient, call: ApiCall)
      modifies this
      ensures State() == old(State()).(outbox := old(outbox) + [Write(client.pipePath, Execute(call, api, secret))])
    {
      var response := Execute(call, api, secret);
      outbox := outbox + [Write(client.GetPipePath(), response)];
    }

    /**
     * handleDisconnect: moves the client out of the registry and confirms to it. For an ID
     * that is not registered, operator[] would default-construct the client that is read.
     */
    method HandleDisconnect(msg: Json)
      requires Contains(msg, "client_id") && HasKind(msg.fields["client_id"], KNumberInteger)
      modifies this
      ensures var id := ClientIdOf(msg.fields["client_id"]).value;
              var client := if id in old(clients) then old(clients)[id] else DefaultClient();
              State() == old(State()).(clients := old(clients) - {id},
                                       outbox := old(outbox) + [Write(client.pipePath, DisconnectReply(secret))])
    {
      var id := ClientIdOf(msg.fields["client_id"]).value;
      var client := if id in clients then clients[id] else DefaultClient();
      clients := clients - {id};
      outbox := outbox + [Write(client.GetPipePath(), DisconnectReply(secret))];
    }

    /** The catch block for InvalidMessageException in processMessage. */
    method ReportError(id: ClientId, error: InvalidMessage)
      modifies this
      ensures State() == Reported(old(State()), id, error, secret)
    {
      if id != INVALID_CLIENT_ID && id in clients {
        var client := clients[id];
        outbox := outbox + [Write(client.GetPipePath(), ErrorReply(secret, error.what))];
      }
    }
  }
}
