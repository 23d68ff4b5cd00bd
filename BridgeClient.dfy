/** BridgeClient.h and BridgeClient.cpp: one registered client, as the bridge remembers it. */
module BridgeClient {

  /** client_id_t, an unsigned int: 32 bits wide. */
  const CLIENT_ID_LIMIT: int := 0x1_0000_0000

  type ClientId = x: int | 0 <= x < CLIENT_ID_LIMIT

  /** INVALID_CLIENT_ID, the largest client_id_t, marks a client without an ID. */
  const INVALID_CLIENT_ID: ClientId := 0xFFFF_FFFF

  /** A client: its ID, the path of its named pipe and the secret it registered with. */
  datatype BridgeClient = BridgeClient(id: ClientId, pipePath: string, secret: string) {

    function GetId(): ClientId {
      id
    }

    function GetPipePath(): string {
      pipePath
    }

    /** secretMatches: compares a claimed secret with the registered one. */
    predicate SecretMatches(claimed: string) {
      secret == claimed
    }

    /** operator bool: a client is valid when it has been given an ID. */
    predicate IsValid() {
      id != INVALID_CLIENT_ID
    }
  }

  /** The default constructor: an invalid client with empty path and secret. */
  function DefaultClient(): BridgeClient {
    BridgeClient(INVALID_CLIENT_ID, "", "")
  }

  /** The constructor BridgeClient(pipePath, secret, id = INVALID_CLIENT_ID). */
  function NewClient(pipePath: string, secret: string, id: ClientId := INVALID_CLIENT_ID): BridgeClient {
    BridgeClient(id, pipePath, secret)
  }

  /**
   * The getters give back what the constructor was given, the secret is matched only by
   * itself, and validity is exactly having an ID other than INVALID_CLIENT_ID.
   */
  lemma ClientAccessors(pipePath: string, secret: string, id: ClientId, claimed: string)
    ensures NewClient(pipePath, secret, id).GetId() == id
    ensures NewClient(pipePath, secret, id).GetPipePath() == pipePath
    ensures NewClient(pipePath, secret, id).SecretMatches(claimed) <==> claimed == secret
    ensures NewClient(pipePath, secret, id).IsValid() <==> id != INVALID_CLIENT_ID
  {
  }

  /** A default client, and one built without an ID, are invalid. */
  lemma ClientsWithoutIdAreInvalid(pipePath: string, secret: string)
    ensures !DefaultClient().IsValid()
    ensures !NewClient(pipePath, secret).IsValid()
  {
  }
}
