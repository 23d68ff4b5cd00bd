/**
 * What processMessage guarantees about the registry of clients and about the replies: the
 * order of the checks, the IDs handed out, who is told about errors, and the bridge secret
 * carried by every reply the bridge builds itself.
 */
module BridgeProperties {
  import opened Wrappers
  import opened Json
  import opened Messages
  import opened Registration
  import opened ApiCall
  import opened BridgeClient
  import opened Bridge

  /** Every client is stored under its own ID, and every ID in use is below the counter. */
  ghost predicate RegistryConsistent(s: BridgeState) {
    forall id: ClientId :: id in s.clients ==> s.clients[id].id == id && id < s.nextClientId
  }

  /** A reply built by the bridge itself: it names its type and carries the bridge's secret. */
  predicate SignedReply(j: Json, bridgeSecret: string) {
    && Contains(j, "response_type") && j.fields["response_type"].Str?
    && Contains(j, "secret") && j.fields["secret"] == Str(bridgeSecret)
  }

  /** The ID a message claims, when it has one that get<client_id_t>() converts. */
  function ClaimedId(msg: Json): Option<ClientId> {
    if Contains(msg, "client_id") then ClientIdOf(msg.fields["client_id"]) else None
  }

  /** A bridge that has just been constructed knows no client, whatever the shared counter holds. */
  lemma StartedBridgeIsConsistent(next: ClientId)
    ensures RegistryConsistent(BridgeState(map[], next, []))
  {
  }

  /**
   * Bridges constructed one after the other in the same process draw their IDs from the one
   * counter: the client registered with the second bridge gets the ID after the first one's.
   */
  method ConsecutiveBridgesShareIds(api: MumbleApi, bridgeSecret: string, first: Registration, second: Registration)
    returns (a: Bridge, b: Bridge)
    ensures a.idCounter == b.idCounter && b.idCounter.next == 2
    ensures a.clients.Keys == {0} && a.clients[0].pipePath == first.pipePath
    ensures b.clients.Keys == {1} && b.clients[1].pipePath == second.pipePath
  {
    var counter := new ClientIdCounter();
    a := new Bridge(api, bridgeSecret, counter);
    a.HandleRegistration(first, true);
    b := new Bridge(api, bridgeSecret, counter);
    b.HandleRegistration(second, true);
  }

  /**
   * One message at a time, as long as the counter has not reached INVALID_CLIENT_ID: the
   * registry stays consistent, at most the counter's ID is added, no stored client is ever
   * replaced, the counter moves by at most one, and the outbox only grows, by at most one.
   */
  lemma StepKeepsRegistry(api: MumbleApi, bridgeSecret: string, s: BridgeState, msg: Json, pipeExists: bool)
    requires RegistryConsistent(s) && s.nextClientId < INVALID_CLIENT_ID
    ensures var r := Step(api, bridgeSecret, s, msg, pipeExists).state;
            && RegistryConsistent(r)
            && r.clients.Keys <= s.clients.Keys + {s.nextClientId}
            && (forall id :: id in s.clients && id in r.clients ==> r.clients[id] == s.clients[id])
            && s.nextClientId <= r.nextClientId <= s.nextClientId + 1
            && s.outbox <= r.outbox && |r.outbox| <= |s.outbox| + 1
  {
    var r := Step(api, bridgeSecret, s, msg, pipeExists).state;
    match Classify(api.functions, s.clients, msg)
    case Register(registration) =>
      if pipeExists {
        assert r == Registered(s, registration, bridgeSecret);
        assert r.nextClientId == s.nextClientId + 1;
        forall id: ClientId | id in r.clients
          ensures r.clients[id].id == id && id < r.nextClientId
        {
          if id != s.nextClientId {
            assert id in s.clients;
          }
        }
      }
    case Reject(id, error) =>
    case Call(id, call) =>
    case Disconnect(id) =>
    case Escape =>
  }

  /**
   * A registration whose pipe exists gets the counter's ID, which no client holds yet, with
   * the pipe path and secret it asked for; the counter moves on and the client is told its ID
   * in a signed registration reply on its own pipe.
   */
  lemma RegistrationGivesFreshId(api: MumbleApi, bridgeSecret: string, s: BridgeState, msg: Json,
                                 registration: Registration)
    requires RegistryConsistent(s) && s.nextClientId < INVALID_CLIENT_ID
    requires Classify(api.functions, s.clients, msg) == Register(registration)
    ensures var r := Step(api, bridgeSecret, s, msg, true).state;
            var id := s.nextClientId;
            && id !in s.clients
            && r.clients.Keys == s.clients.Keys + {id}
            && r.clients[id].IsValid()
            && r.clients[id].GetPipePath() == registration.pipePath
            && r.clients[id].SecretMatches(registration.secret)
            && r.nextClientId == id + 1
            && |r.outbox| == |s.outbox| + 1
            && r.outbox[|s.outbox|].pipe == registration.pipePath
            && SignedReply(r.outbox[|s.outbox|].message, bridgeSecret)
            && r.outbox[|s.outbox|].message.fields["response_type"] == Str("registration")
            && r.outbox[|s.outbox|].message.fields["response"].fields["client_id"] == Unsigned(id)
  {
  }

  /** A registration whose pipe does not exist changes nothing: no client, no ID, no reply. */
  lemma RegistrationWithoutPipeChangesNothing(api: MumbleApi, bridgeSecret: string, s: BridgeState, msg: Json)
    requires Classify(api.functions, s.clients, msg).Register?
    ensures Step(api, bridgeSecret, s, msg, false) == StepResult(s, false)
  {
  }

  /**
   * The counter is 32 bits wide: the registration that finds it at INVALID_CLIENT_ID stores a
   * client that is not valid, under that ID, and the counter starts again at 0.
   */
  lemma RegistrationAtLimitWrapsAround(api: MumbleApi, bridgeSecret: string, s: BridgeState, msg: Json)
    requires s.nextClientId == INVALID_CLIENT_ID
    requires Classify(api.functions, s.clients, msg).Register?
    ensures var r := Step(api, bridgeSecret, s, msg, true).state;
            && INVALID_CLIENT_ID in r.clients && !r.clients[INVALID_CLIENT_ID].IsValid()
            && r.nextClientId == 0
  {
  }

  /** The messages the bridge receives, each with whether a registering client's pipe exists. */
  function Run(api: MumbleApi, bridgeSecret: string, s: BridgeState, inputs: seq<(Json, bool)>): StepResult
    decreases |inputs|
  {
    if inputs == [] then StepResult(s, false)
    else
      var first := Step(api, bridgeSecret, s, inputs[0].0, inputs[0].1);
      if first.escaped then first
      else Run(api, bridgeSecret, first.state, inputs[1..])
  }

  /**
   * Over any run that cannot make the counter reach INVALID_CLIENT_ID, the registry stays
   * consistent, the counter never goes back, a stored client is never replaced, and what was
   * written stays written: IDs are unique and handed out in increasing order.
   */
  lemma {:induction false} RunKeepsRegistry(api: MumbleApi, bridgeSecret: string, s: BridgeState,
                                            inputs: seq<(Json, bool)>)
    requires RegistryConsistent(s) && s.nextClientId + |inputs| < INVALID_CLIENT_ID
    ensures var r := Run(api, bridgeSecret, s, inputs).state;
            && RegistryConsistent(r)
            && s.nextClientId <= r.nextClientId <= s.nextClientId + |inputs|
            && (forall id :: id in s.clients && id in r.clients ==> r.clients[id] == s.clients[id])
            && (forall id :: id in r.clients && id !in s.clients ==> s.nextClientId <= id)
            && s.outbox <= r.outbox
    decreases |inputs|
  {
    if inputs != [] {
      var first := Step(api, bridgeSecret, s, inputs[0].0, inputs[0].1);
      StepKeepsRegistry(api, bridgeSecret, s, inputs[0].0, inputs[0].1);
      if !first.escaped {
        RunKeepsRegistry(api, bridgeSecret, first.state, inputs[1..]);
        var r := Run(api, bridgeSecret, first.state, inputs[1..]).state;
        forall id | id in r.clients && id !in s.clients
          ensures s.nextClientId <= id
        {
          if id in first.state.clients {
            assert id == s.nextClientId;
          }
        }
      }
    }
  }

  /**
   * Every message other than a registration is checked in this order: an integer client_id,
   * a string secret, a registered client, a matching secret; and only a message that passes
   * all four is dispatched. A failure after the ID was read is charged to that ID.
   */
  lemma AuthenticationOrder(functions: ApiFunctions, clients: map<ClientId, BridgeClient>, msg: Json)
    requires ParseBasicFormat(msg).Success? && ParseBasicFormat(msg).value != REGISTRATION
    ensures var v := Classify(functions, clients, msg);
            var idCheck := AssertField(msg, "client_id", KNumberInteger);
            var secretCheck := AssertField(msg, "secret", KString);
            && (idCheck.Fail? ==> v == Reject(INVALID_CLIENT_ID, idCheck.error))
            && (idCheck.Pass? ==> ClaimedId(msg).Some?)
            && (idCheck.Pass? && secretCheck.Fail? ==> v == Reject(ClaimedId(msg).value, secretCheck.error))
            && (idCheck.Pass? && secretCheck.Pass? && ClaimedId(msg).value !in clients
                ==> v == Reject(ClaimedId(msg).value, InvalidMessage(INVALID_CLIENT_ID_TEXT)))
            && (idCheck.Pass? && secretCheck.Pass? && ClaimedId(msg).value in clients
                && !clients[ClaimedId(msg).value].SecretMatches(StringField(msg, "secret"))
                ==> v == Reject(ClaimedId(msg).value, InvalidMessage(PERMISSION_DENIED_TEXT)))
            && (v.Call? || v.Disconnect? <==>
                  && idCheck.Pass? && secretCheck.Pass?
                  && ClaimedId(msg).value in clients
                  && clients[ClaimedId(msg).value].SecretMatches(StringField(msg, "secret"))
                  && (ParseBasicFormat(msg).value == API_CALL
                      ==> ParseApiCall(functions, msg.fields["message"]).Success?))
            && (v.Call? || v.Disconnect? ==> v.id == ClaimedId(msg).value)
  {
  }

  /**
   * An authenticated API call reaches the API with the bridge's secret, and the API's answer
   * goes, as it is, to the caller's pipe; the registry is untouched.
   */
  lemma ApiCallReachesApi(api: MumbleApi, bridgeSecret: string, s: BridgeState, msg: Json, pipeExists: bool)
    requires Classify(api.functions, s.clients, msg).Call?
    ensures var v := Classify(api.functions, s.clients, msg);
            var r := Step(api, bridgeSecret, s, msg, pipeExists).state;
            && v.call.functionName in api.functions.all
            && r.clients == s.clients && r.nextClientId == s.nextClientId
            && r.outbox == s.outbox + [Write(s.clients[v.id].pipePath,
                                             api.execute(v.call.functionName, bridgeSecret, msg.fields["message"]))]
  {
  }

  /**
   * Disconnecting removes exactly the sender from the registry and sends it a signed
   * disconnect reply without a response body; the counter is not touched.
   */
  lemma DisconnectRemovesClient(api: MumbleApi, bridgeSecret: string, s: BridgeState, msg: Json,
                                pipeExists: bool, id: ClientId)
    requires Classify(api.functions, s.clients, msg) == Disconnect(id)
    ensures var r := Step(api, bridgeSecret, s, msg, pipeExists).state;
            && id in s.clients && id !in r.clients
            && (forall other :: other != id ==> (other in r.clients <==> other in s.clients))
            && (forall other :: other in r.clients ==> r.clients[other] == s.clients[other])
            && r.nextClientId == s.nextClientId
            && |r.outbox| == |s.outbox| + 1 && s.outbox <= r.outbox
            && r.outbox[|s.outbox|].pipe == s.clients[id].pipePath
            && SignedReply(r.outbox[|s.outbox|].message, bridgeSecret)
            && r.outbox[|s.outbox|].message.fields["response_type"] == Str("disconnect")
            && !Contains(r.outbox[|s.outbox|].message, "response")
  {
  }

  /**
   * A message that is not a registration and does not name a registered client is answered
   * by nobody: the state is unchanged (and at worst processing is aborted).
   */
  lemma UnknownSenderGetsNoReply(api: MumbleApi, bridgeSecret: string, s: BridgeState, msg: Json, pipeExists: bool)
    requires ParseBasicFormat(msg) != Success(REGISTRATION)
    requires ClaimedId(msg).Some? ==> ClaimedId(msg).value !in s.clients
    ensures Step(api, bridgeSecret, s, msg, pipeExists).state == s
  {
  }

  /** After a disconnect, the same message again gets no reply and changes nothing. */
  lemma SilenceAfterDisconnect(api: MumbleApi, bridgeSecret: string, s: BridgeState, msg: Json,
                               pipeExists: bool, pipeExistsLater: bool)
    requires Classify(api.functions, s.clients, msg).Disconnect?
    ensures var after := Step(api, bridgeSecret, s, msg, pipeExists).state;
            Step(api, bridgeSecret, after, msg, pipeExistsLater) == StepResult(after, false)
  {
    var id := Classify(api.functions, s.clients, msg).id;
    var after := Step(api, bridgeSecret, s, msg, pipeExists).state;
    AuthenticationOrder(api.functions, s.clients, msg);
    AuthenticationOrder(api.functions, after.clients, msg);
    assert id !in after.clients;
  }

  /**
   * An invalid message is reported to its sender exactly when the ID known at the time of the
   * error is valid and registered; the report is a signed error reply carrying the error text.
   */
  lemma ErrorsGoOnlyToRegisteredSenders(api: MumbleApi, bridgeSecret: string, s: BridgeState, msg: Json,
                                        pipeExists: bool, id: ClientId, error: InvalidMessage)
    requires Classify(api.functions, s.clients, msg) == Reject(id, error)
    ensures var r := Step(api, bridgeSecret, s, msg, pipeExists).state;
            && r.clients == s.clients && r.nextClientId == s.nextClientId
            && (r.outbox != s.outbox <==> id != INVALID_CLIENT_ID && id in s.clients)
            && (r.outbox != s.outbox ==>
                  && |r.outbox| == |s.outbox| + 1 && s.outbox <= r.outbox
                  && r.outbox[|s.outbox|].pipe == s.clients[id].pipePath
                  && SignedReply(r.outbox[|s.outbox|].message, bridgeSecret)
                  && r.outbox[|s.outbox|].message.fields["response_type"] == Str("error")
                  && r.outbox[|s.outbox|].message.fields["response"].fields["error_message"] == Str(error.what))
  {
  }

  /**
   * A message that fails the basic format check is still charged to the ID in its client_id
   * field; a client_id that is not a number or boolean aborts processing and changes nothing.
   */
  lemma ParseFailureRecoversId(functions: ApiFunctions, clients: map<ClientId, BridgeClient>, msg: Json)
    requires ParseBasicFormat(msg).Failure?
    ensures ClaimedId(msg).Some? ==>
              Classify(functions, clients, msg) == Reject(ClaimedId(msg).value, ParseBasicFormat(msg).error)
    ensures !Contains(msg, "client_id") ==>
              Classify(functions, clients, msg) == Reject(INVALID_CLIENT_ID, ParseBasicFormat(msg).error)
    ensures Classify(functions, clients, msg) == Escape <==> Contains(msg, "client_id") && ClaimedId(msg).None?
  {
  }

  /** An aborted message leaves the bridge exactly as it was. */
  lemma EscapeChangesNothing(api: MumbleApi, bridgeSecret: string, s: BridgeState, msg: Json, pipeExists: bool)
    requires Classify(api.functions, s.clients, msg) == Escape
    ensures Step(api, bridgeSecret, s, msg, pipeExists) == StepResult(s, true)
  {
  }

  /**
   * Each message adds at most one write; every write the bridge builds itself carries the
   * bridge's secret, and the only other kind is the API's answer to an authenticated call.
   */
  lemma EveryReplyIsSignedOrApiAnswer(api: MumbleApi, bridgeSecret: string, s: BridgeState, msg: Json, pipeExists: bool)
    ensures var r := Step(api, bridgeSecret, s, msg, pipeExists).state;
            && s.outbox <= r.outbox && |r.outbox| <= |s.outbox| + 1
            && (|r.outbox| == |s.outbox| + 1 ==>
                  SignedReply(r.outbox[|s.outbox|].message, bridgeSecret)
                  || Classify(api.functions, s.clients, msg).Call?)
  {
  }
}
