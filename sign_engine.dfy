/**
  `SignEngine`: the pairing and session state machine. It owns the table of
  pending session proposals (proposer public key to the proposal request) and
  drives, through its collaborators, the stored pairings and sessions, the
  key material, the relay subscriptions, the outbound relay traffic and the
  events it reports to the application.

  The collaborators are abstract state of the engine: the sequence storage is
  two maps from topic to record (plus the namespace-update bookkeeping), the
  key store a map from tag to key material, the relay a set of subscribed
  topics and a log of what was published, the application's event stream a
  log of events. The validator and the key agreement are functions the engine
  is built with. Every nondeterministic input of one call (the clock, a fresh
  id, key or topic, whether storage and the relay succeed) is an `Env`.
 */
module SignEngine {
  import opened Wrappers
  import opened Protocol
  import opened Expiration
  import opened PairingVO
  import opened SessionVO
  import opened EngineSpec

  datatype ValidationError = ValidationError(code: int, message: string)

  /**
    `Validator`: each check yields the error it reports, or `None` when the
    input passes; `wcUri` parses a connection URI.
   */
  datatype Validator = Validator(
    proposalNamespaces: ProposalNamespaces -> Option<ValidationError>,
    sessionNamespaces: (SessionNamespaces, ProposalNamespaces) -> Option<ValidationError>,
    sessionRequest: (Topic, SessionRequestPayload, string) -> Option<ValidationError>,
    methodAuthorisation: (string, string, SessionNamespaces) -> Option<ValidationError>,
    event: (SessionEventPayload, string) -> Option<ValidationError>,
    eventAuthorisation: (string, string, SessionNamespaces) -> Option<ValidationError>,
    sessionExtend: (int, int) -> Option<ValidationError>,
    wcUri: string -> Option<WalletConnectUri>)

  /** What the key store keeps under a tag. */
  datatype KeyEntry =
    | SymmetricKey(key: string)
    | KeyPair(publicKey: KeyHex)
    | Agreement(selfPublicKey: KeyHex, peerPublicKey: KeyHex)

  datatype SequenceKind = PAIRING | SESSION

  /** The errors the engine reports to a peer (`PeerError`). */
  datatype PeerFault =
    | Rejected(code: int, reason: string)
    | FromValidation(error: ValidationError)
    | NoMatchingTopic(sequence: SequenceKind, topic: Topic)
    | UnauthorizedEventEmit(sequence: SequenceKind)
    | UnauthorizedUpdateRequest(sequence: SequenceKind)
    | UnauthorizedExtendRequest(sequence: SequenceKind)
    | InvalidUpdateRequest(message: string)
    | SessionSettlementFailed(message: string)

  /** One publication handed to the relay. */
  datatype Outbound =
    | RequestOut(topic: Topic, request: JsonRpcRequest, params: IridiumParams)
    | ResponseOut(topic: Topic, response: JsonRpcResponse, params: IridiumParams)
    | ErrorOut(topic: Topic, id: int, fault: PeerFault, params: IridiumParams)

  datatype ProposedSequence = PairingProposed(uri: string) | SessionProposed

  /** The events of the application-facing stream (`EngineEvent`). */
  datatype EngineEvent =
    | ConnectionState(isAvailable: bool)
    | SessionProposal(proposal: ClientParams)
    | SessionApproved(session: Session)
    | SessionRejected(topic: Topic, reason: string)
    | DeletedPairing(topic: Topic, reason: string)
    | DeletedSession(topic: Topic, reason: string)
    | SessionRequestReceived(topic: Topic, id: int, request: SessionRequestPayload, chainId: string, peer: Option<MetaData>)
    | SessionEventReceived(topic: Topic, event: SessionEventPayload, chainId: string)
    | SessionUpdateNamespaces(topic: Topic, namespaces: SessionNamespaces)
    | SessionExtended(topic: Topic, expiry: int)
    | SettledSessionResponse(session: Session)
    | UpdateNamespacesResponseResult(topic: Topic, namespaces: SessionNamespaces)
    | UpdateNamespacesResponseError(message: string)
    | SessionPayloadResponse(topic: Topic, chainId: string, rpcMethod: string, response: JsonRpcResponse)
    | InternalError(message: string)

  /** The exceptions the engine's commands throw (`WalletConnectException`). */
  datatype EngineError =
    | CannotFindSequenceForTopic(topic: Topic)
    | MalformedWalletConnectUri
    | PairWithExistingPairingIsNotAllowed
    | CannotFindSessionProposal(proposerPublicKey: KeyHex)
    | InvalidNamespace(message: string)
    | UnauthorizedPeer(operation: string)
    | NotSettledSession(topic: Topic)
    | InvalidRequest(message: string)
    | UnauthorizedMethod(message: string)
    | InvalidEvent(message: string)
    | UnauthorizedEvent(message: string)
    | NoRelayInProposal

  /** Which of the caller's callbacks a command that returned normally fires. */
  datatype Notice = Silent | Proposed(sequence: ProposedSequence) | FailureReported

  /**
    The nondeterministic inputs of one call: the clock, a freshly generated
    id, key pair (its public key), topic and symmetric key, and whether the
    storage write and the relay publish succeed.
   */
  datatype Env = Env(
    now: int, id: int, freshKey: KeyHex, freshTopic: Topic, freshSymKey: string,
    storageOk: bool, storageMessage: string, relayOk: bool)

  /** The engine's state and its collaborators' abstract state, as one value. */
  datatype EngineState = EngineState(
    proposals: map<KeyHex, WCRequest>,
    pairings: map<Topic, Pairing>,
    sessions: map<Topic, Session>,
    keys: map<string, KeyEntry>,
    subscribed: set<Topic>,
    published: seq<Outbound>,
    events: seq<EngineEvent>,
    namespaceStamps: map<Topic, int>,
    unackNamespaces: map<int, (Topic, SessionNamespaces)>)

  const URI_VERSION := "2"
  const USER_DISCONNECTED_CODE := 6000
  const DISCONNECT_MESSAGE := "User disconnected"
  const UPDATE_OPERATION := "update"
  const EMIT_OPERATION := "emit"
  const EXTEND_OPERATION := "extend"
  const UPDATE_TOO_OLD_MESSAGE := "Update Namespace Request ID too old"
  const UPDATE_FAILED_MESSAGE := "Updating Namespace Failed. Review Namespace structure"
  const UNABLE_TO_UPDATE_MESSAGE := "Unable to update the session"

  /** `IridiumParamsVO(tag, TtlVO(seconds), prompt)`. */
  function Irn(tag: Tag, seconds: int, prompt: bool): IridiumParams {
    IridiumParams(tag, Ttl(seconds), prompt)
  }

  /** The relays a proposal carries: those of the pairing, else the caller's, else the default one. */
  function ProposalRelays(fromPairing: Option<seq<RelayProtocolOptions>>, requested: Option<seq<RelayProtocolOptions>>)
    : (r: seq<RelayProtocolOptions>)
    ensures fromPairing.Some? ==> r == fromPairing.value
    ensures fromPairing.None? && requested.Some? ==> r == requested.value
    ensures fromPairing.None? && requested.None? ==> r == [DefaultRelay]
  {
    match fromPairing
    case Some(relays) => relays
    case None => requested.GetOr([DefaultRelay])
  }

  /** `upsertPairingPeerMetadata`: records the peer's metadata on a stored pairing. */
  function UpsertPeerMetadata(pairings: map<Topic, Pairing>, topic: Topic, peer: MetaData): (r: map<Topic, Pairing>)
    ensures r.Keys == pairings.Keys
    ensures topic in pairings ==> r[topic] == pairings[topic].(peerMetaData := Some(peer))
    ensures forall t :: t in pairings && t != topic ==> r[t] == pairings[t]
  {
    if topic in pairings then pairings[topic := pairings[topic].(peerMetaData := Some(peer))] else pairings
  }

  /** `deleteNamespaceAndInsertNewNamespace`: the session's namespaces replaced, nothing else. */
  function WithNamespaces(sessions: map<Topic, Session>, topic: Topic, namespaces: SessionNamespaces)
    : (r: map<Topic, Session>)
    requires topic in sessions
    ensures r.Keys == sessions.Keys && r[topic].namespaces == namespaces
    ensures r[topic] == sessions[topic].(namespaces := namespaces)
    ensures forall t :: t in sessions && t != topic ==> r[t] == sessions[t]
  {
    sessions[topic := sessions[topic].(namespaces := namespaces)]
  }

  /** Removing one more key from a map is removing it from the already reduced map. */
  lemma MinusOneMore<K, V>(m: map<K, V>, done: set<K>, t: K)
    ensures m - (done + {t}) == (m - done) - {t}
  {
  }

  class SignEngine {
    const validator: Validator
    /** `generateTopicFromKeyAgreement`: the topic derived from two public keys. */
    const agreementTopic: (KeyHex, KeyHex) -> Topic
    const metaData: MetaData
    /** `Expiration`, loaded once when the engine starts. */
    const deadlines: Deadlines

    /** `sessionProposalRequest`. */
    var proposals: map<KeyHex, WCRequest>
    var pairings: map<Topic, Pairing>
    var sessions: map<Topic, Session>
    var keys: map<string, KeyEntry>
    var subscribed: set<Topic>
    var published: seq<Outbound>
    var events: seq<EngineEvent>
    /** The timestamp of the last namespace update applied to each session. */
    var namespaceStamps: map<Topic, int>
    /** Namespace updates sent and not yet acknowledged, by request id. */
    var unackNamespaces: map<int, (Topic, SessionNamespaces)>

    function State(): EngineState
      reads this
    {
      EngineState(proposals, pairings, sessions, keys, subscribed, published, events, namespaceStamps, unackNamespaces)
    }

    /** Every pending proposal holds session-propose parameters. */
    predicate Valid()
      reads this
    {
      forall k :: k in proposals ==> proposals[k].params.SessionProposeParams?
    }

    constructor (validator: Validator, agreementTopic: (KeyHex, KeyHex) -> Topic, metaData: MetaData, loadTime: int,
                 pairings: map<Topic, Pairing>, sessions: map<Topic, Session>, keys: map<string, KeyEntry>)
      ensures Valid()
      ensures this.validator == validator && this.agreementTopic == agreementTopic && this.metaData == metaData
      ensures deadlines == LoadedAt(loadTime)
      ensures State() == EngineState(map[], pairings, sessions, keys, {}, [], [], map[], map[])
    {
      this.validator := validator;
      this.agreementTopic := agreementTopic;
      this.metaData := metaData;
      deadlines := LoadedAt(loadTime);
      proposals := map[];
      this.pairings := pairings;
      this.sessions := sessions;
      this.keys := keys;
      subscribed := {};
      published := [];
      events := [];
      namespaceStamps := map[];
      unackNamespaces := map[];
    }

    // -------------------------------------------------------------------------
    // Relay effects

    method Publish(o: Outbound)
      modifies this
      ensures State() == old(State()).(published := old(published) + [o])
    {
      published := published + [o];
    }

    /** `respondWithError`: an error with the request's id, on the request's topic. */
    method RespondWithError(request: WCRequest, fault: PeerFault, params: IridiumParams)
      modifies this
      ensures State() == old(State()).(published := old(published) + [ErrorOut(request.topic, request.id, fault, params)])
    {
      Publish(ErrorOut(request.topic, request.id, fault, params));
    }

    /** `respondWithSuccess`: the result `true` with the request's id, on the request's topic. */
    method RespondWithSuccess(request: WCRequest, params: IridiumParams)
      modifies this
      ensures State() == old(State()).(published := old(published)
                + [ResponseOut(request.topic, JsonRpcResult(request.id, BoolResult(true)), params)])
    {
      Publish(ResponseOut(request.topic, JsonRpcResult(request.id, BoolResult(true)), params));
    }

    // -------------------------------------------------------------------------
    // Commands

    /**
      `proposeSession`: validates the namespaces before any effect; then
      generates a key pair, remembers the proposal under its public key,
      subscribes to the pairing topic and publishes the proposal there.
     */
    method ProposeSession(namespaces: ProposalNamespaces, relays: Option<seq<RelayProtocolOptions>>,
                          pairingTopic: Topic, pairingRelays: Option<seq<RelayProtocolOptions>>,
                          proposed: ProposedSequence, env: Env)
      returns (r: Result<Notice, EngineError>)
      requires Valid()
      modifies this
      ensures Valid()
      ensures validator.proposalNamespaces(namespaces).Some? ==>
        r == Failure(InvalidNamespace(validator.proposalNamespaces(namespaces).value.message)) && unchanged(this)
      ensures validator.proposalNamespaces(namespaces).None? ==>
        var params := SessionProposeParams(ProposalRelays(pairingRelays, relays), SessionProposer(env.freshKey, metaData), namespaces);
        && State() == old(State()).(
             keys := old(keys)[env.freshKey := KeyPair(env.freshKey)],
             proposals := old(proposals)[env.freshKey := WCRequest(pairingTopic, env.id, WC_SESSION_PROPOSE, params)],
             subscribed := old(subscribed) + {pairingTopic},
             published := old(published) + [RequestOut(pairingTopic, Rpc(env.id, params), Irn(SESSION_PROPOSE, FIVE_MINUTES_IN_SECONDS, true))])
        && r == Success(if env.relayOk then Proposed(proposed) else FailureReported)
    {
      var error := validator.proposalNamespaces(namespaces);
      if error.Some? {
        return Failure(InvalidNamespace(error.value.message));
      }
      var selfPublicKey := env.freshKey;
      keys := keys[selfPublicKey := KeyPair(selfPublicKey)];
      var params := SessionProposeParams(ProposalRelays(pairingRelays, relays), SessionProposer(selfPublicKey, metaData), namespaces);
      var request := Rpc(env.id, params);
      proposals := proposals[selfPublicKey := WCRequest(pairingTopic, request.id, request.rpcMethod, params)];
      subscribed := subscribed + {pairingTopic};
      Publish(RequestOut(pairingTopic, request, Irn(SESSION_PROPOSE, FIVE_MINUTES_IN_SECONDS, true)));
      r := Success(if env.relayOk then Proposed(proposed) else FailureReported);
    }

    /**
      `proposeSequence`: over a given pairing topic, the pairing must be
      valid and the proposal carries the pairing's relay. Without one,
      `proposePairing` first creates an inactive pairing on a fresh topic with
      a fresh symmetric key, stores it and subscribes to it (a storage failure
      removes the key, unsubscribes and reports the failure), and only then
      proposes the session, whose namespace check can still fail: the pairing
      then stays stored and subscribed.
     */
    method ProposeSequence(namespaces: ProposalNamespaces, relays: Option<seq<RelayProtocolOptions>>,
                           pairingTopic: Option<Topic>, env: Env)
      returns (r: Result<Notice, EngineError>)
      requires Valid()
      modifies this
      ensures Valid()
      ensures pairingTopic.Some? && !IsPairingValid(old(pairings), pairingTopic.value, env.now) ==>
        r == Failure(CannotFindSequenceForTopic(pairingTopic.value)) && unchanged(this)
      ensures pairingTopic.Some? && IsPairingValid(old(pairings), pairingTopic.value, env.now)
              && validator.proposalNamespaces(namespaces).Some? ==>
        r == Failure(InvalidNamespace(validator.proposalNamespaces(namespaces).value.message)) && unchanged(this)
      ensures pairingTopic.Some? && IsPairingValid(old(pairings), pairingTopic.value, env.now)
              && validator.proposalNamespaces(namespaces).None? ==>
        var p := old(pairings)[pairingTopic.value];
        var params := SessionProposeParams([RelayProtocolOptions(p.relayProtocol, p.relayData)],
                                           SessionProposer(env.freshKey, metaData), namespaces);
        && State() == old(State()).(
             keys := old(keys)[env.freshKey := KeyPair(env.freshKey)],
             proposals := old(proposals)[env.freshKey := WCRequest(pairingTopic.value, env.id, WC_SESSION_PROPOSE, params)],
             subscribed := old(subscribed) + {pairingTopic.value},
             published := old(published) + [RequestOut(pairingTopic.value, Rpc(env.id, params), Irn(SESSION_PROPOSE, FIVE_MINUTES_IN_SECONDS, true))])
        && r == Success(if env.relayOk then Proposed(SessionProposed) else FailureReported)
      ensures pairingTopic.None? && !env.storageOk ==>
        State() == old(State()).(keys := old(keys) - {env.freshTopic}, subscribed := old(subscribed) - {env.freshTopic})
        && r == Success(FailureReported)
      ensures pairingTopic.None? && env.storageOk ==>
        var t := env.freshTopic;
        var uri := ToAbsoluteString(WalletConnectUri(t, env.freshSymKey, DefaultRelay, URI_VERSION));
        var pairing := CreateInactivePairing(deadlines, t, DefaultRelay, uri);
        && (validator.proposalNamespaces(namespaces).Some? ==>
              State() == old(State()).(
                pairings := old(pairings)[t := pairing],
                keys := old(keys)[t := SymmetricKey(env.freshSymKey)],
                subscribed := old(subscribed) + {t})
              && r == Failure(InvalidNamespace(validator.proposalNamespaces(namespaces).value.message)))
        && (validator.proposalNamespaces(namespaces).None? ==>
              var params := SessionProposeParams(ProposalRelays(None, relays), SessionProposer(env.freshKey, metaData), namespaces);
              && State() == old(State()).(
                   pairings := old(pairings)[t := pairing],
                   keys := old(keys)[t := SymmetricKey(env.freshSymKey)][env.freshKey := KeyPair(env.freshKey)],
                   proposals := old(proposals)[env.freshKey := WCRequest(t, env.id, WC_SESSION_PROPOSE, params)],
                   subscribed := old(subscribed) + {t},
                   published := old(published) + [RequestOut(t, Rpc(env.id, params), Irn(SESSION_PROPOSE, FIVE_MINUTES_IN_SECONDS, true))])
              && r == Success(if env.relayOk then Proposed(PairingProposed(uri)) else FailureReported))
    {
      if pairingTopic.Some? {
        if !IsPairingValid(pairings, pairingTopic.value, env.now) {
          return Failure(CannotFindSequenceForTopic(pairingTopic.value));
        }
        var pairing := pairings[pairingTopic.value];
        var relay := RelayProtocolOptions(pairing.relayProtocol, pairing.relayData);
        r := ProposeSession(namespaces, relays, pairingTopic.value, Some([relay]), SessionProposed, env);
      } else {
        r := ProposePairing(namespaces, relays, env);
      }
    }

    /** `proposePairing`, as described at `ProposeSequence`. */
    method ProposePairing(namespaces: ProposalNamespaces, relays: Option<seq<RelayProtocolOptions>>, env: Env)
      returns (r: Result<Notice, EngineError>)
      requires Valid()
      modifies this
      ensures Valid()
      ensures !env.storageOk ==>
        State() == old(State()).(keys := old(keys) - {env.freshTopic}, subscribed := old(subscribed) - {env.freshTopic})
        && r == Success(FailureReported)
      ensures env.storageOk ==>
        var t := env.freshTopic;
        var uri := ToAbsoluteString(WalletConnectUri(t, env.freshSymKey, DefaultRelay, URI_VERSION));
        var pairing := CreateInactivePairing(deadlines, t, DefaultRelay, uri);
        && (validator.proposalNamespaces(namespaces).Some? ==>
              State() == old(State()).(
                pairings := old(pairings)[t := pairing],
                keys := old(keys)[t := SymmetricKey(env.freshSymKey)],
                subscribed := old(subscribed) + {t})
              && r == Failure(InvalidNamespace(validator.proposalNamespaces(namespaces).value.message)))
        && (validator.proposalNamespaces(namespaces).None? ==>
              var params := SessionProposeParams(ProposalRelays(None, relays), SessionProposer(env.freshKey, metaData), namespaces);
              && State() == old(State()).(
                   pairings := old(pairings)[t := pairing],
                   keys := old(keys)[t := SymmetricKey(env.freshSymKey)][env.freshKey := KeyPair(env.freshKey)],
                   proposals := old(proposals)[env.freshKey := WCRequest(t, env.id, WC_SESSION_PROPOSE, params)],
                   subscribed := old(subscribed) + {t},
                   published := old(published) + [RequestOut(t, Rpc(env.id, params), Irn(SESSION_PROPOSE, FIVE_MINUTES_IN_SECONDS, true))])
              && r == Success(if env.relayOk then Proposed(PairingProposed(uri)) else FailureReported))
    {
      var pairingTopic := env.freshTopic;
      var symmetricKey := env.freshSymKey;
      keys := keys[pairingTopic := SymmetricKey(symmetricKey)];
      var uri := ToAbsoluteString(WalletConnectUri(pairingTopic, symmetricKey, DefaultRelay, URI_VERSION));
      var pairing := CreateInactivePairing(deadlines, pairingTopic, DefaultRelay, uri);
      if env.storageOk {
        pairings := pairings[pairingTopic := pairing];
        subscribed := subscribed + {pairingTopic};
        r := ProposeSession(namespaces, relays, pairingTopic, None, PairingProposed(uri), env);
      } else {
        keys := keys - {pairingTopic};
        subscribed := subscribed - {pairingTopic};
        r := Success(FailureReported);
      }
    }

    /**
      `pair`: a URI that does not parse is malformed; a URI whose topic is
      already a valid pairing is refused. Otherwise the symmetric key is
      stored and an active pairing for the URI's topic is stored and
      subscribed; a storage failure removes the key again and unsubscribes,
      without reporting anything.
     */
    method Pair(uri: string, env: Env) returns (r: Result<(), EngineError>)
      requires Valid()
      modifies this
      ensures Valid()
      ensures validator.wcUri(uri).None? ==> r == Failure(MalformedWalletConnectUri) && unchanged(this)
      ensures validator.wcUri(uri).Some? && IsPairingValid(old(pairings), validator.wcUri(uri).value.topic, env.now) ==>
        r == Failure(PairWithExistingPairingIsNotAllowed) && unchanged(this)
      ensures validator.wcUri(uri).Some? && !IsPairingValid(old(pairings), validator.wcUri(uri).value.topic, env.now) ==>
        var u := validator.wcUri(uri).value;
        && r == Success(())
        && (env.storageOk ==> State() == old(State()).(
              keys := old(keys)[u.topic := SymmetricKey(u.symKey)],
              pairings := old(pairings)[u.topic := CreateActivePairing(deadlines, u)],
              subscribed := old(subscribed) + {u.topic}))
        && (!env.storageOk ==> State() == old(State()).(
              keys := old(keys) - {u.topic}, subscribed := old(subscribed) - {u.topic}))
    {
      var parsed := validator.wcUri(uri);
      if parsed.None? {
        return Failure(MalformedWalletConnectUri);
      }
      var u := parsed.value;
      if IsPairingValid(pairings, u.topic, env.now) {
        return Failure(PairWithExistingPairingIsNotAllowed);
      }
      var pairing := CreateActivePairing(deadlines, u);
      keys := keys[u.topic := SymmetricKey(u.symKey)];
      if env.storageOk {
        pairings := pairings[pairing.topic := pairing];
        subscribed := subscribed + {pairing.topic};
      } else {
        keys := keys - {u.topic};
        subscribed := subscribed - {pairing.topic};
      }
      r := Success(());
    }

    /**
      `reject`: an unknown proposer key throws and changes nothing; otherwise
      the proposal is removed and answered with an error carrying the given
      code and reason. The caller hears only of a failed publish.
     */
    method Reject(proposerPublicKey: KeyHex, reason: string, code: int, env: Env)
      returns (r: Result<Notice, EngineError>)
      requires Valid()
      modifies this
      ensures Valid()
      ensures proposerPublicKey !in old(proposals) ==>
        r == Failure(CannotFindSessionProposal(proposerPublicKey)) && unchanged(this)
      ensures proposerPublicKey in old(proposals) ==>
        var request := old(proposals)[proposerPublicKey];
        && State() == old(State()).(
             proposals := old(proposals) - {proposerPublicKey},
             published := old(published) + [ErrorOut(request.topic, request.id, Rejected(code, reason),
                                                     Irn(SESSION_PROPOSE_RESPONSE, FIVE_MINUTES_IN_SECONDS, false))])
        && r == Success(if env.relayOk then Silent else FailureReported)
    {
      if proposerPublicKey !in proposals {
        return Failure(CannotFindSessionProposal(proposerPublicKey));
      }
      var request := proposals[proposerPublicKey];
      proposals := proposals - {proposerPublicKey};
      RespondWithError(request, Rejected(code, reason), Irn(SESSION_PROPOSE_RESPONSE, FIVE_MINUTES_IN_SECONDS, false));
      r := Success(if env.relayOk then Silent else FailureReported);
    }

    /**
      `approve`: an unknown proposer key throws and changes nothing. A known
      one is removed from the table FIRST, so it is gone even when the granted
      namespaces then fail validation. After validation: a fresh key pair,
      the session topic agreed with the proposer's key, a subscription, the
      approval answer to the proposal and, once the unacknowledged session is
      stored, the settlement request on the session topic. A storage failure
      sends no settlement and reports the failure.
     */
    method Approve(proposerPublicKey: KeyHex, namespaces: SessionNamespaces, env: Env)
      returns (r: Result<Notice, EngineError>)
      requires Valid()
      modifies this
      ensures Valid()
      ensures proposerPublicKey !in old(proposals) ==>
        r == Failure(CannotFindSessionProposal(proposerPublicKey)) && unchanged(this)
      ensures proposerPublicKey in old(proposals) ==> proposerPublicKey !in proposals
      ensures proposerPublicKey in old(proposals) ==>
        var request := old(proposals)[proposerPublicKey];
        var proposal := request.params;
        var error := validator.sessionNamespaces(namespaces, proposal.namespaces);
        && (error.Some? ==>
              State() == old(State()).(proposals := old(proposals) - {proposerPublicKey})
              && r == Failure(InvalidNamespace(error.value.message)))
        && (error.None? && |proposal.relays| == 0 ==>
              var sessionTopic := agreementTopic(env.freshKey, proposerPublicKey);
              State() == old(State()).(
                proposals := old(proposals) - {proposerPublicKey},
                keys := old(keys)[env.freshKey := KeyPair(env.freshKey)][sessionTopic := Agreement(env.freshKey, proposerPublicKey)],
                subscribed := old(subscribed) + {sessionTopic})
              && r == Failure(NoRelayInProposal))
        && (error.None? && |proposal.relays| > 0 ==>
              var sessionTopic := agreementTopic(env.freshKey, proposerPublicKey);
              var relay := proposal.relays[0];
              var self := SessionParticipant(env.freshKey, metaData);
              var approval := ResponseOut(request.topic, JsonRpcResult(request.id, ParamsResult(ApprovalParams(relay, env.freshKey))),
                                          Irn(SESSION_PROPOSE_RESPONSE, FIVE_MINUTES_IN_SECONDS, false));
              var settle := SessionSettleParams(relay, self, namespaces, deadlines.activeSession);
              var session := CreateUnacknowledgedSession(sessionTopic, proposal, self, deadlines.activeSession, namespaces);
              var afterApproval := old(State()).(
                proposals := old(proposals) - {proposerPublicKey},
                keys := old(keys)[env.freshKey := KeyPair(env.freshKey)][sessionTopic := Agreement(env.freshKey, proposerPublicKey)],
                subscribed := old(subscribed) + {sessionTopic},
                published := old(published) + [approval]);
              && (env.storageOk ==>
                    State() == afterApproval.(
                      sessions := old(sessions)[sessionTopic := session],
                      published := afterApproval.published + [RequestOut(sessionTopic, Rpc(env.id, settle), Irn(SESSION_SETTLE, FIVE_MINUTES_IN_SECONDS, false))])
                    && r == Success(if env.relayOk then Silent else FailureReported))
              && (!env.storageOk ==> State() == afterApproval && r == Success(FailureReported)))
    {
      if proposerPublicKey !in proposals {
        return Failure(CannotFindSessionProposal(proposerPublicKey));
      }
      var request := proposals[proposerPublicKey];
      proposals := proposals - {proposerPublicKey};
      var proposal := request.params;
      var error := validator.sessionNamespaces(namespaces, proposal.namespaces);
      if error.Some? {
        return Failure(InvalidNamespace(error.value.message));
      }
      var selfPublicKey := env.freshKey;
      keys := keys[selfPublicKey := KeyPair(selfPublicKey)];
      var sessionTopic := agreementTopic(selfPublicKey, proposerPublicKey);
      keys := keys[sessionTopic := Agreement(selfPublicKey, proposerPublicKey)];
      subscribed := subscribed + {sessionTopic};
      if |proposal.relays| == 0 {
        return Failure(NoRelayInProposal);
      }
      var relay := proposal.relays[0];
      Publish(ResponseOut(request.topic, JsonRpcResult(request.id, ParamsResult(ApprovalParams(relay, selfPublicKey))),
                          Irn(SESSION_PROPOSE_RESPONSE, FIVE_MINUTES_IN_SECONDS, false)));
      // sessionSettle
      var self := SessionParticipant(selfPublicKey, metaData);
      var session := CreateUnacknowledgedSession(sessionTopic, proposal, self, deadlines.activeSession, namespaces);
      if env.storageOk {
        sessions := sessions[sessionTopic := session];
        var settle := SessionSettleParams(relay, self, namespaces, deadlines.activeSession);
        Publish(RequestOut(sessionTopic, Rpc(env.id, settle), Irn(SESSION_SETTLE, FIVE_MINUTES_IN_SECONDS, false)));
        r := Success(if env.relayOk then Silent else FailureReported);
      } else {
        r := Success(FailureReported);
      }
    }

    /**
      `updateSession`: checks, in this order and before any effect, that the
      session is valid, that this side is its controller, that it is
      acknowledged and that the namespaces satisfy its proposal. Then the
      update is staged as unacknowledged under the request id and, once
      staged, published; a staging failure publishes nothing.
     */
    method UpdateSession(topic: Topic, namespaces: SessionNamespaces, env: Env)
      returns (r: Result<Notice, EngineError>)
      requires Valid()
      modifies this
      ensures Valid()
      ensures !IsSessionValid(old(sessions), topic, env.now) ==>
        r == Failure(CannotFindSequenceForTopic(topic)) && unchanged(this)
      ensures IsSessionValid(old(sessions), topic, env.now) && !IsSelfController(old(sessions)[topic]) ==>
        r == Failure(UnauthorizedPeer(UPDATE_OPERATION)) && unchanged(this)
      ensures IsSessionValid(old(sessions), topic, env.now) && IsSelfController(old(sessions)[topic])
              && !old(sessions)[topic].isAcknowledged ==>
        r == Failure(NotSettledSession(topic)) && unchanged(this)
      ensures IsSessionValid(old(sessions), topic, env.now) && IsSelfController(old(sessions)[topic])
              && old(sessions)[topic].isAcknowledged ==>
        var error := validator.sessionNamespaces(namespaces, old(sessions)[topic].proposalNamespaces);
        && (error.Some? ==> r == Failure(InvalidNamespace(error.value.message)) && unchanged(this))
        && (error.None? && env.storageOk ==>
              State() == old(State()).(
                unackNamespaces := old(unackNamespaces)[env.id := (topic, namespaces)],
                published := old(published) + [RequestOut(topic, Rpc(env.id, UpdateNamespacesParams(namespaces)),
                                                         Irn(SESSION_UPDATE, DAY_IN_SECONDS, false))])
              && r == Success(if env.relayOk then Silent else FailureReported))
        && (error.None? && !env.storageOk ==> State() == old(State()) && r == Success(FailureReported))
    {
      if !IsSessionValid(sessions, topic, env.now) {
        return Failure(CannotFindSequenceForTopic(topic));
      }
      var session := sessions[topic];
      if !IsSelfController(session) {
        return Failure(UnauthorizedPeer(UPDATE_OPERATION));
      }
      if !session.isAcknowledged {
        return Failure(NotSettledSession(topic));
      }
      var error := validator.sessionNamespaces(namespaces, session.proposalNamespaces);
      if error.Some? {
        return Failure(InvalidNamespace(error.value.message));
      }
      var request := Rpc(env.id, UpdateNamespacesParams(namespaces));
      if env.storageOk {
        unackNamespaces := unackNamespaces[request.id := (topic, namespaces)];
        Publish(RequestOut(topic, request, Irn(SESSION_UPDATE, DAY_IN_SECONDS, false)));
        r := Success(if env.relayOk then Silent else FailureReported);
      } else {
        r := Success(FailureReported);
      }
    }

    /**
      `sessionRequest`: the session must be valid, the request well formed
      and its chain and method authorised by the session's namespaces; only
      then is it published, with the prompt flag set.
     */
    method SessionRequest(topic: Topic, request: SessionRequestPayload, chainId: string, env: Env)
      returns (r: Result<Notice, EngineError>)
      requires Valid()
      modifies this
      ensures Valid()
      ensures !IsSessionValid(old(sessions), topic, env.now) ==>
        r == Failure(CannotFindSequenceForTopic(topic)) && unchanged(this)
      ensures IsSessionValid(old(sessions), topic, env.now) && validator.sessionRequest(topic, request, chainId).Some? ==>
        r == Failure(InvalidRequest(validator.sessionRequest(topic, request, chainId).value.message)) && unchanged(this)
      ensures IsSessionValid(old(sessions), topic, env.now) && validator.sessionRequest(topic, request, chainId).None? ==>
        var error := validator.methodAuthorisation(chainId, request.rpcMethod, old(sessions)[topic].namespaces);
        && (error.Some? ==> r == Failure(UnauthorizedMethod(error.value.message)) && unchanged(this))
        && (error.None? ==>
              State() == old(State()).(published := old(published)
                + [RequestOut(topic, Rpc(env.id, SessionRequestParams(request, chainId)), Irn(SESSION_REQUEST, FIVE_MINUTES_IN_SECONDS, true))])
              && r == Success(if env.relayOk then Silent else FailureReported))
      ensures r.Success? ==>
        IsSessionValid(old(sessions), topic, env.now)
        && validator.methodAuthorisation(chainId, request.rpcMethod, old(sessions)[topic].namespaces).None?
    {
      if !IsSessionValid(sessions, topic, env.now) {
        return Failure(CannotFindSequenceForTopic(topic));
      }
      var invalid := validator.sessionRequest(topic, request, chainId);
      if invalid.Some? {
        return Failure(InvalidRequest(invalid.value.message));
      }
      var unauthorised := validator.methodAuthorisation(chainId, request.rpcMethod, sessions[topic].namespaces);
      if unauthorised.Some? {
        return Failure(UnauthorizedMethod(unauthorised.value.message));
      }
      Publish(RequestOut(topic, Rpc(env.id, SessionRequestParams(request, chainId)), Irn(SESSION_REQUEST, FIVE_MINUTES_IN_SECONDS, true)));
      r := Success(if env.relayOk then Silent else FailureReported);
    }

    /** `respondSessionRequest`: on a valid session, publishes the application's response unchanged. */
    method RespondSessionRequest(topic: Topic, response: JsonRpcResponse, env: Env)
      returns (r: Result<Notice, EngineError>)
      requires Valid()
      modifies this
      ensures Valid()
      ensures !IsSessionValid(old(sessions), topic, env.now) ==>
        r == Failure(CannotFindSequenceForTopic(topic)) && unchanged(this)
      ensures IsSessionValid(old(sessions), topic, env.now) ==>
        State() == old(State()).(published := old(published)
          + [ResponseOut(topic, response, Irn(SESSION_REQUEST_RESPONSE, FIVE_MINUTES_IN_SECONDS, false))])
        && r == Success(if env.relayOk then Silent else FailureReported)
    {
      if !IsSessionValid(sessions, topic, env.now) {
        return Failure(CannotFindSequenceForTopic(topic));
      }
      Publish(ResponseOut(topic, response, Irn(SESSION_REQUEST_RESPONSE, FIVE_MINUTES_IN_SECONDS, false)));
      r := Success(if env.relayOk then Silent else FailureReported);
    }

    /**
      `ping`: a session ping on a valid session, else a pairing ping on a
      valid pairing, else an exception; both pings live thirty seconds.
     */
    method Ping(topic: Topic, env: Env) returns (r: Result<Notice, EngineError>)
      requires Valid()
      modifies this
      ensures Valid()
      ensures PingTargetOf(old(sessions), old(pairings), topic, env.now).NoSequence? ==>
        r == Failure(CannotFindSequenceForTopic(topic)) && unchanged(this)
      ensures PingTargetOf(old(sessions), old(pairings), topic, env.now).SessionPing? ==>
        State() == old(State()).(published := old(published)
          + [RequestOut(topic, Rpc(env.id, SessionPingParams), Irn(SESSION_PING, THIRTY_SECONDS, false))])
        && r == Success(if env.relayOk then Silent else FailureReported)
      ensures PingTargetOf(old(sessions), old(pairings), topic, env.now).PairingPing? ==>
        State() == old(State()).(published := old(published)
          + [RequestOut(topic, Rpc(env.id, PairingPingParams), Irn(PAIRING_PING, THIRTY_SECONDS, false))])
        && r == Success(if env.relayOk then Silent else FailureReported)
    {
      var target := PingTargetOf(sessions, pairings, topic, env.now);
      if target.NoSequence? {
        return Failure(CannotFindSequenceForTopic(topic));
      }
      if target.SessionPing? {
        Publish(RequestOut(topic, Rpc(env.id, SessionPingParams), Irn(SESSION_PING, THIRTY_SECONDS, false)));
      } else {
        Publish(RequestOut(topic, Rpc(env.id, PairingPingParams), Irn(PAIRING_PING, THIRTY_SECONDS, false)));
      }
      r := Success(if env.relayOk then Silent else FailureReported);
    }

    /**
      `emit`: the session must be valid and controlled by this side, the
      event well formed and authorised by the session's namespaces; only then
      is it published, with the prompt flag set.
     */
    method Emit(topic: Topic, event: SessionEventPayload, chainId: string, env: Env)
      returns (r: Result<Notice, EngineError>)
      requires Valid()
      modifies this
      ensures Valid()
      ensures !IsSessionValid(old(sessions), topic, env.now) ==>
        r == Failure(CannotFindSequenceForTopic(topic)) && unchanged(this)
      ensures IsSessionValid(old(sessions), topic, env.now) && !IsSelfController(old(sessions)[topic]) ==>
        r == Failure(UnauthorizedPeer(EMIT_OPERATION)) && unchanged(this)
      ensures IsSessionValid(old(sessions), topic, env.now) && IsSelfController(old(sessions)[topic]) ==>
        var invalid := validator.event(event, chainId);
        var unauthorised := validator.eventAuthorisation(chainId, event.name, old(sessions)[topic].namespaces);
        && (invalid.Some? ==> r == Failure(InvalidEvent(invalid.value.message)) && unchanged(this))
        && (invalid.None? && unauthorised.Some? ==> r == Failure(UnauthorizedEvent(unauthorised.value.message)) && unchanged(this))
        && (invalid.None? && unauthorised.None? ==>
              State() == old(State()).(published := old(published)
                + [RequestOut(topic, Rpc(env.id, EventParams(event, chainId)), Irn(SESSION_EVENT, FIVE_MINUTES_IN_SECONDS, true))])
              && r == Success(if env.relayOk then Silent else FailureReported))
    {
      if !IsSessionValid(sessions, topic, env.now) {
        return Failure(CannotFindSequenceForTopic(topic));
      }
      var session := sessions[topic];
      if !IsSelfController(session) {
        return Failure(UnauthorizedPeer(EMIT_OPERATION));
      }
      var invalid := validator.event(event, chainId);
      if invalid.Some? {
        return Failure(InvalidEvent(invalid.value.message));
      }
      var unauthorised := validator.eventAuthorisation(chainId, event.name, session.namespaces);
      if unauthorised.Some? {
        return Failure(UnauthorizedEvent(unauthorised.value.message));
      }
      Publish(RequestOut(topic, Rpc(env.id, EventParams(event, chainId)), Irn(SESSION_EVENT, FIVE_MINUTES_IN_SECONDS, true)));
      r := Success(if env.relayOk then Silent else FailureReported);
    }

    /**
      `extend`: the session must be valid, controlled by this side and
      acknowledged. The new expiry is the session's OLD expiry plus one week;
      it is stored before the extension is published, and stays stored when
      the publish fails.
     */
    method Extend(topic: Topic, env: Env) returns (r: Result<Notice, EngineError>)
      requires Valid()
      modifies this
      ensures Valid()
      ensures !IsSessionValid(old(sessions), topic, env.now) ==>
        r == Failure(CannotFindSequenceForTopic(topic)) && unchanged(this)
      ensures IsSessionValid(old(sessions), topic, env.now) && !IsSelfController(old(sessions)[topic]) ==>
        r == Failure(UnauthorizedPeer(EXTEND_OPERATION)) && unchanged(this)
      ensures IsSessionValid(old(sessions), topic, env.now) && IsSelfController(old(sessions)[topic])
              && !old(sessions)[topic].isAcknowledged ==>
        r == Failure(NotSettledSession(topic)) && unchanged(this)
      ensures IsSessionValid(old(sessions), topic, env.now) && IsSelfController(old(sessions)[topic])
              && old(sessions)[topic].isAcknowledged ==>
        var newExpiry := old(sessions)[topic].expiry + WEEK_IN_SECONDS;
        && State() == old(State()).(
             sessions := old(sessions)[topic := old(sessions)[topic].(expiry := newExpiry)],
             published := old(published) + [RequestOut(topic, Rpc(env.id, ExtendParams(newExpiry)), Irn(SESSION_EXTEND, DAY_IN_SECONDS, false))])
        && r == Success(if env.relayOk then Silent else FailureReported)
        && IsSessionValid(sessions, topic, env.now + WEEK_IN_SECONDS)
    {
      if !IsSessionValid(sessions, topic, env.now) {
        return Failure(CannotFindSequenceForTopic(topic));
      }
      var session := sessions[topic];
      if !IsSelfController(session) {
        return Failure(UnauthorizedPeer(EXTEND_OPERATION));
      }
      if !session.isAcknowledged {
        return Failure(NotSettledSession(topic));
      }
      var newExpiry := session.expiry + WEEK_IN_SECONDS;
      sessions := sessions[topic := session.(expiry := newExpiry)];
      Publish(RequestOut(topic, Rpc(env.id, ExtendParams(newExpiry)), Irn(SESSION_EXTEND, DAY_IN_SECONDS, false)));
      r := Success(if env.relayOk then Silent else FailureReported);
    }

    /**
      `disconnect`: on a valid session, deletes it and unsubscribes BEFORE
      publishing the deletion with the user-disconnected reason; a failed
      publish is only logged, and nothing is restored. The session's keys are
      left in the key store.
     */
    method Disconnect(topic: Topic, env: Env) returns (r: Result<(), EngineError>)
      requires Valid()
      modifies this
      ensures Valid()
      ensures !IsSessionValid(old(sessions), topic, env.now) ==>
        r == Failure(CannotFindSequenceForTopic(topic)) && unchanged(this)
      ensures IsSessionValid(old(sessions), topic, env.now) ==>
        State() == old(State()).(
          sessions := old(sessions) - {topic},
          subscribed := old(subscribed) - {topic},
          published := old(published) + [RequestOut(topic, Rpc(env.id, SessionDeleteParams(USER_DISCONNECTED_CODE, DISCONNECT_MESSAGE)),
                                                   Irn(SESSION_DELETE, DAY_IN_SECONDS, false))])
        && r == Success(())
        && topic !in sessions && topic !in subscribed
    {
      if !IsSessionValid(sessions, topic, env.now) {
        return Failure(CannotFindSequenceForTopic(topic));
      }
      var request := Rpc(env.id, SessionDeleteParams(USER_DISCONNECTED_CODE, DISCONNECT_MESSAGE));
      sessions := sessions - {topic};
      subscribed := subscribed - {topic};
      Publish(RequestOut(topic, request, Irn(SESSION_DELETE, DAY_IN_SECONDS, false)));
      r := Success(());
    }

    // -------------------------------------------------------------------------
    // Inbound requests

    /**
      `collectJsonRpcRequests`: each inbound request goes to the handler of
      its parameter type; both pings share one handler.
     */
    method OnRequest(request: WCRequest, env: Env)
      requires Valid()
      modifies this
      ensures Valid()
      ensures request.params.SessionProposeParams? ==> ProposeHandled(request)
      ensures request.params.PairingDeleteParams? ==> PairingDeleteHandled(request, env)
      ensures request.params.SessionSettleParams? ==> SettleHandled(request, env)
      ensures request.params.SessionRequestParams? ==> SessionRequestHandled(request, env)
      ensures request.params.SessionDeleteParams? ==> SessionDeleteHandled(request, env)
      ensures request.params.EventParams? ==> SessionEventHandled(request, env)
      ensures request.params.UpdateNamespacesParams? ==> SessionUpdateHandled(request, env)
      ensures request.params.ExtendParams? ==> SessionExtendHandled(request, env)
      ensures request.params.SessionPingParams? || request.params.PairingPingParams? ==> PingAnswered(request)
      ensures request.params.ApprovalParams? ==> unchanged(this)
    {
      match request.params
      case SessionProposeParams(_, _, _) => OnSessionPropose(request);
      case PairingDeleteParams(_, _) => OnPairingDelete(request, env);
      case SessionSettleParams(_, _, _, _) => OnSessionSettle(request, env);
      case SessionRequestParams(_, _) => OnSessionRequest(request, env);
      case SessionDeleteParams(_, _) => OnSessionDelete(request, env);
      case EventParams(_, _) => OnSessionEvent(request, env);
      case UpdateNamespacesParams(_) => OnSessionUpdate(request, env);
      case ExtendParams(_) => OnSessionExtend(request, env);
      case SessionPingParams => OnPing(request);
      case PairingPingParams => OnPing(request);
      case ApprovalParams(_, _) =>
    }

    /** The effect of `onSessionPropose`, as described at `OnSessionPropose`. */
    twostate predicate ProposeHandled(request: WCRequest)
      requires request.params.SessionProposeParams?
      reads this
    {
      && (validator.proposalNamespaces(request.params.namespaces).Some? ==>
        State() == old(State()).(published := old(published) + [ErrorOut(request.topic, request.id,
          FromValidation(validator.proposalNamespaces(request.params.namespaces).value),
          Irn(SESSION_PROPOSE_RESPONSE, FIVE_MINUTES_IN_SECONDS, false))]))
      && (validator.proposalNamespaces(request.params.namespaces).None? ==>
        State() == old(State()).(
          proposals := old(proposals)[request.params.proposer.publicKey := request],
          events := old(events) + [SessionProposal(request.params)]))
    }

    /**
      `onSessionPropose`: a proposal with invalid namespaces is answered with
      the validation error; a valid one is remembered under the proposer's
      key and reported.
     */
    method OnSessionPropose(request: WCRequest)
      requires Valid() && request.params.SessionProposeParams?
      modifies this
      ensures Valid()
      ensures ProposeHandled(request)
    {
      var error := validator.proposalNamespaces(request.params.namespaces);
      if error.Some? {
        RespondWithError(request, FromValidation(error.value), Irn(SESSION_PROPOSE_RESPONSE, FIVE_MINUTES_IN_SECONDS, false));
        return;
      }
      proposals := proposals[request.params.proposer.publicKey := request];
      events := events + [SessionProposal(request.params)];
    }

    /** The effect of `onSessionSettle`, as described at `OnSessionSettle`. */
    twostate predicate SettleHandled(request: WCRequest, env: Env)
      requires old(Valid()) && request.params.SessionSettleParams?
      reads this
    {
      && (!(request.topic in old(keys) && old(keys)[request.topic].Agreement?) ==> unchanged(this))
      && (request.topic in old(keys) && old(keys)[request.topic].Agreement? ==>
        var self := old(keys)[request.topic].selfPublicKey;
        var settle := request.params;
        var params := Irn(SESSION_SETTLE, FIVE_MINUTES_IN_SECONDS, false);
        && (self !in old(proposals) ==> unchanged(this))
        && (self in old(proposals) ==>
             var proposal := old(proposals)[self];
             var error := validator.sessionNamespaces(settle.settleNamespaces, proposal.params.namespaces);
             && (error.Some? ==>
                   State() == old(State()).(published := old(published)
                     + [ErrorOut(request.topic, request.id, FromValidation(error.value), params)]))
             && (error.None? ==>
                   var session := CreateAcknowledgedSession(request.topic, settle, self, metaData, proposal.params.namespaces);
                   var withPeer := UpsertPeerMetadata(old(pairings), proposal.topic, settle.controller.metadata);
                   && (env.storageOk ==>
                         State() == old(State()).(
                           pairings := withPeer,
                           proposals := old(proposals) - {self},
                           sessions := old(sessions)[request.topic := session],
                           published := old(published) + [ResponseOut(request.topic, JsonRpcResult(request.id, BoolResult(true)), params)],
                           events := old(events) + [SessionApproved(session)]))
                   && (!env.storageOk ==>
                         State() == old(State()).(
                           pairings := withPeer,
                           sessions := old(sessions) - {request.topic},
                           published := old(published)
                             + [ErrorOut(request.topic, request.id, SessionSettlementFailed(env.storageMessage), params)])))))
    }

    /**
      `onSessionSettle`: the proposer's side. The proposal is found through
      this side's key of the agreement on the session topic; without one
      nothing happens. Settled namespaces that do not satisfy the proposal
      are answered with the validation error. Otherwise the peer's metadata
      is recorded on the pairing, the proposal is removed, the acknowledged
      session is stored, the settlement is answered with success and the
      session is reported. A storage failure restores the proposal, deletes
      the session topic and answers with a settlement failure.
     */
    method OnSessionSettle(request: WCRequest, env: Env)
      requires Valid() && request.params.SessionSettleParams?
      modifies this
      ensures Valid()
      ensures SettleHandled(request, env)
    {
      var sessionTopic := request.topic;
      if !(sessionTopic in keys && keys[sessionTopic].Agreement?) {
        return;
      }
      var selfPublicKey := keys[sessionTopic].selfPublicKey;
      var settle := request.params;
      if selfPublicKey !in proposals {
        return;
      }
      var proposal := proposals[selfPublicKey];
      var params := Irn(SESSION_SETTLE, FIVE_MINUTES_IN_SECONDS, false);
      var proposalNamespaces := proposal.params.namespaces;
      var error := validator.sessionNamespaces(settle.settleNamespaces, proposalNamespaces);
      if error.Some? {
        RespondWithError(request, FromValidation(error.value), params);
        return;
      }
      var session := CreateAcknowledgedSession(sessionTopic, settle, selfPublicKey, metaData, proposalNamespaces);
      pairings := UpsertPeerMetadata(pairings, proposal.topic, settle.controller.metadata);
      if env.storageOk {
        proposals := proposals - {selfPublicKey};
        sessions := sessions[sessionTopic := session];
        RespondWithSuccess(request, params);
        events := events + [SessionApproved(session)];
      } else {
        sessions := sessions - {sessionTopic};
        RespondWithError(request, SessionSettlementFailed(env.storageMessage), params);
      }
    }

    /** The effect of `onPairingDelete`, as described at `OnPairingDelete`. */
    twostate predicate PairingDeleteHandled(request: WCRequest, env: Env)
      requires request.params.PairingDeleteParams?
      reads this
    {
      && (!IsPairingValid(old(pairings), request.topic, env.now) ==>
        State() == old(State()).(published := old(published) + [ErrorOut(request.topic, request.id,
          NoMatchingTopic(PAIRING, request.topic), Irn(PAIRING_DELETE_RESPONSE, DAY_IN_SECONDS, false))]))
      && (IsPairingValid(old(pairings), request.topic, env.now) ==>
        State() == old(State()).(
          keys := old(keys) - {request.topic},
          subscribed := old(subscribed) - {request.topic},
          pairings := old(pairings) - {request.topic},
          events := old(events) + [DeletedPairing(request.topic, request.params.message)]))
    }

    /**
      `onPairingDelete`: a topic that is not a valid pairing is answered with
      no-matching-topic; otherwise the pairing's keys, subscription and record
      are removed and the deletion reported with the peer's message.
     */
    method OnPairingDelete(request: WCRequest, env: Env)
      requires Valid() && request.params.PairingDeleteParams?
      modifies this
      ensures Valid()
      ensures PairingDeleteHandled(request, env)
    {
      if !IsPairingValid(pairings, request.topic, env.now) {
        RespondWithError(request, NoMatchingTopic(PAIRING, request.topic), Irn(PAIRING_DELETE_RESPONSE, DAY_IN_SECONDS, false));
        return;
      }
      keys := keys - {request.topic};
      subscribed := subscribed - {request.topic};
      pairings := pairings - {request.topic};
      events := events + [DeletedPairing(request.topic, request.params.message)];
    }

    /** The effect of `onSessionDelete`, as described at `OnSessionDelete`. */
    twostate predicate SessionDeleteHandled(request: WCRequest, env: Env)
      requires request.params.SessionDeleteParams?
      reads this
    {
      && (!IsSessionValid(old(sessions), request.topic, env.now) ==>
        State() == old(State()).(published := old(published) + [ErrorOut(request.topic, request.id,
          NoMatchingTopic(SESSION, request.topic), Irn(SESSION_DELETE_RESPONSE, DAY_IN_SECONDS, false))]))
      && (IsSessionValid(old(sessions), request.topic, env.now) ==>
        State() == old(State()).(
          keys := old(keys) - {request.topic},
          sessions := old(sessions) - {request.topic},
          subscribed := old(subscribed) - {request.topic},
          events := old(events) + [DeletedSession(request.topic, request.params.message)]))
    }

    /**
      `onSessionDelete`: a topic that is not a valid session is answered with
      no-matching-topic; otherwise the session's keys, record and
      subscription are removed and the deletion reported.
     */
    method OnSessionDelete(request: WCRequest, env: Env)
      requires Valid() && request.params.SessionDeleteParams?
      modifies this
      ensures Valid()
      ensures SessionDeleteHandled(request, env)
    {
      if !IsSessionValid(sessions, request.topic, env.now) {
        RespondWithError(request, NoMatchingTopic(SESSION, request.topic), Irn(SESSION_DELETE_RESPONSE, DAY_IN_SECONDS, false));
        return;
      }
      keys := keys - {request.topic};
      sessions := sessions - {request.topic};
      subscribed := subscribed - {request.topic};
      events := events + [DeletedSession(request.topic, request.params.message)];
    }

    /** The effect of `onSessionRequest`, as described at `OnSessionRequest`. */
    twostate predicate SessionRequestHandled(request: WCRequest, env: Env)
      requires request.params.SessionRequestParams?
      reads this
    {
      && (var p := request.params;
        var params := Irn(SESSION_REQUEST_RESPONSE, FIVE_MINUTES_IN_SECONDS, false);
        var invalid := validator.sessionRequest(request.topic, p.request, p.chainId);
        && (invalid.Some? ==>
              State() == old(State()).(published := old(published)
                + [ErrorOut(request.topic, request.id, FromValidation(invalid.value), params)]))
        && (invalid.None? && !IsSessionValid(old(sessions), request.topic, env.now) ==>
              State() == old(State()).(published := old(published)
                + [ErrorOut(request.topic, request.id, NoMatchingTopic(SESSION, request.topic), params)]))
        && (invalid.None? && IsSessionValid(old(sessions), request.topic, env.now) ==>
              var session := old(sessions)[request.topic];
              var unauthorised := validator.methodAuthorisation(p.chainId, p.request.rpcMethod, session.namespaces);
              && (unauthorised.Some? ==>
                    State() == old(State()).(published := old(published)
                      + [ErrorOut(request.topic, request.id, FromValidation(unauthorised.value), params)]))
              && (unauthorised.None? ==>
                    State() == old(State()).(events := old(events)
                      + [SessionRequestReceived(request.topic, request.id, p.request, p.chainId, session.peerMetaData)]))))
    }

    /**
      `onSessionRequest`: the request is validated first, then the session
      must be valid, then the chain and method must be authorised by the
      session's namespaces; each failure is answered with its error. A
      request that passes is not answered: it is reported to the
      application, with the peer's metadata, to be answered later.
     */
    method OnSessionRequest(request: WCRequest, env: Env)
      requires Valid() && request.params.SessionRequestParams?
      modifies this
      ensures Valid()
      ensures SessionRequestHandled(request, env)
    {
      var p := request.params;
      var params := Irn(SESSION_REQUEST_RESPONSE, FIVE_MINUTES_IN_SECONDS, false);
      var invalid := validator.sessionRequest(request.topic, p.request, p.chainId);
      if invalid.Some? {
        RespondWithError(request, FromValidation(invalid.value), params);
        return;
      }
      if !IsSessionValid(sessions, request.topic, env.now) {
        RespondWithError(request, NoMatchingTopic(SESSION, request.topic), params);
        return;
      }
      var session := sessions[request.topic];
      var unauthorised := validator.methodAuthorisation(p.chainId, p.request.rpcMethod, session.namespaces);
      if unauthorised.Some? {
        RespondWithError(request, FromValidation(unauthorised.value), params);
        return;
      }
      events := events + [SessionRequestReceived(request.topic, request.id, p.request, p.chainId, session.peerMetaData)];
    }

    /** The effect of `onSessionEvent`, as described at `OnSessionEvent`. */
    twostate predicate SessionEventHandled(request: WCRequest, env: Env)
      requires request.params.EventParams?
      reads this
    {
      && (var p := request.params;
        var params := Irn(SESSION_EVENT_RESPONSE, FIVE_MINUTES_IN_SECONDS, false);
        var invalid := validator.event(p.event, p.chainId);
        && (invalid.Some? ==>
              State() == old(State()).(published := old(published)
                + [ErrorOut(request.topic, request.id, FromValidation(invalid.value), params)]))
        && (invalid.None? && !IsSessionValid(old(sessions), request.topic, env.now) ==>
              State() == old(State()).(published := old(published)
                + [ErrorOut(request.topic, request.id, NoMatchingTopic(SESSION, request.topic), params)]))
        && (invalid.None? && IsSessionValid(old(sessions), request.topic, env.now) ==>
              var session := old(sessions)[request.topic];
              var unauthorised := validator.eventAuthorisation(p.chainId, p.event.name, session.namespaces);
              && (!IsPeerController(session) ==>
                    State() == old(State()).(published := old(published)
                      + [ErrorOut(request.topic, request.id, UnauthorizedEventEmit(SESSION), params)]))
              && (IsPeerController(session) && !session.isAcknowledged ==>
                    State() == old(State()).(published := old(published)
                      + [ErrorOut(request.topic, request.id, NoMatchingTopic(SESSION, request.topic), params)]))
              && (IsPeerController(session) && session.isAcknowledged && unauthorised.Some? ==>
                    State() == old(State()).(published := old(published)
                      + [ErrorOut(request.topic, request.id, FromValidation(unauthorised.value), params)]))
              && (IsPeerController(session) && session.isAcknowledged && unauthorised.None? ==>
                    State() == old(State()).(
                      published := old(published) + [ResponseOut(request.topic, JsonRpcResult(request.id, BoolResult(true)), params)],
                      events := old(events) + [SessionEventReceived(request.topic, p.event, p.chainId)]))))
    }

    /**
      `onSessionEvent`: the event is validated first; then the session must
      be valid, controlled by the peer and acknowledged (an unacknowledged
      one is answered as no-matching-topic), and the event authorised by its
      namespaces. An event that passes is acknowledged and reported.
     */
    method OnSessionEvent(request: WCRequest, env: Env)
      requires Valid() && request.params.EventParams?
      modifies this
      ensures Valid()
      ensures SessionEventHandled(request, env)
    {
      var p := request.params;
      var params := Irn(SESSION_EVENT_RESPONSE, FIVE_MINUTES_IN_SECONDS, false);
      var invalid := validator.event(p.event, p.chainId);
      if invalid.Some? {
        RespondWithError(request, FromValidation(invalid.value), params);
        return;
      }
      if !IsSessionValid(sessions, request.topic, env.now) {
        RespondWithError(request, NoMatchingTopic(SESSION, request.topic), params);
        return;
      }
      var session := sessions[request.topic];
      if !IsPeerController(session) {
        RespondWithError(request, UnauthorizedEventEmit(SESSION), params);
        return;
      }
      if !session.isAcknowledged {
        RespondWithError(request, NoMatchingTopic(SESSION, request.topic), params);
        return;
      }
      var unauthorised := validator.eventAuthorisation(p.chainId, p.event.name, session.namespaces);
      if unauthorised.Some? {
        RespondWithError(request, FromValidation(unauthorised.value), params);
        return;
      }
      RespondWithSuccess(request, params);
      events := events + [SessionEventReceived(request.topic, p.event, p.chainId)];
    }

    /** The effect of `onSessionUpdate`, as described at `OnSessionUpdate`. */
    twostate predicate SessionUpdateHandled(request: WCRequest, env: Env)
      requires request.params.UpdateNamespacesParams?
      reads this
    {
      && (var ns := request.params.updateNamespaces;
        var params := Irn(SESSION_UPDATE_RESPONSE, DAY_IN_SECONDS, false);
        var ts := ExtractTimestamp(request.id);
        && (!IsSessionValid(old(sessions), request.topic, env.now) ==>
              State() == old(State()).(published := old(published)
                + [ErrorOut(request.topic, request.id, NoMatchingTopic(SESSION, request.topic), params)]))
        && (IsSessionValid(old(sessions), request.topic, env.now) ==>
              var session := old(sessions)[request.topic];
              var error := validator.sessionNamespaces(ns, session.proposalNamespaces);
              && (!IsPeerController(session) ==>
                    State() == old(State()).(published := old(published)
                      + [ErrorOut(request.topic, request.id, UnauthorizedUpdateRequest(SESSION), params)]))
              && (IsPeerController(session) && error.Some? ==>
                    State() == old(State()).(published := old(published)
                      + [ErrorOut(request.topic, request.id, InvalidUpdateRequest(error.value.message), params)]))
              && (IsPeerController(session) && error.None? && !IsNamespaceUpdateFresh(old(namespaceStamps), request.topic, ts) ==>
                    State() == old(State()).(published := old(published)
                      + [ErrorOut(request.topic, request.id, InvalidUpdateRequest(UPDATE_TOO_OLD_MESSAGE), params)]))
              && (IsPeerController(session) && error.None? && IsNamespaceUpdateFresh(old(namespaceStamps), request.topic, ts) ==>
                    (env.storageOk ==>
                       State() == old(State()).(
                         sessions := WithNamespaces(old(sessions), request.topic, ns),
                         namespaceStamps := old(namespaceStamps)[request.topic := ts],
                         published := old(published) + [ResponseOut(request.topic, JsonRpcResult(request.id, BoolResult(true)), params)],
                         events := old(events) + [SessionUpdateNamespaces(request.topic, ns)]))
                    && (!env.storageOk ==>
                       State() == old(State()).(published := old(published)
                         + [ErrorOut(request.topic, request.id, InvalidUpdateRequest(UPDATE_FAILED_MESSAGE), params)])))))
    }

    /**
      `onSessionUpdate`: the session must be valid and controlled by the
      peer, the namespaces must satisfy its proposal, and the request's
      timestamp must be strictly newer than the last update applied. Then
      the namespaces are replaced and the timestamp recorded, the update
      acknowledged and reported; a storage failure answers with an error
      and changes nothing.
     */
    method OnSessionUpdate(request: WCRequest, env: Env)
      requires Valid() && request.params.UpdateNamespacesParams?
      modifies this
      ensures Valid()
      ensures SessionUpdateHandled(request, env)
    {
      var ns := request.params.updateNamespaces;
      var params := Irn(SESSION_UPDATE_RESPONSE, DAY_IN_SECONDS, false);
      if !IsSessionValid(sessions, request.topic, env.now) {
        RespondWithError(request, NoMatchingTopic(SESSION, request.topic), params);
        return;
      }
      var session := sessions[request.topic];
      if !IsPeerController(session) {
        RespondWithError(request, UnauthorizedUpdateRequest(SESSION), params);
        return;
      }
      var error := validator.sessionNamespaces(ns, session.proposalNamespaces);
      if error.Some? {
        RespondWithError(request, InvalidUpdateRequest(error.value.message), params);
        return;
      }
      var ts := ExtractTimestamp(request.id);
      if !IsNamespaceUpdateFresh(namespaceStamps, request.topic, ts) {
        RespondWithError(request, InvalidUpdateRequest(UPDATE_TOO_OLD_MESSAGE), params);
        return;
      }
      if env.storageOk {
        sessions := WithNamespaces(sessions, request.topic, ns);
        namespaceStamps := namespaceStamps[request.topic := ts];
        RespondWithSuccess(request, params);
        events := events + [SessionUpdateNamespaces(request.topic, ns)];
      } else {
        RespondWithError(request, InvalidUpdateRequest(UPDATE_FAILED_MESSAGE), params);
      }
    }

    /** The effect of `onSessionExtend`, as described at `OnSessionExtend`. */
    twostate predicate SessionExtendHandled(request: WCRequest, env: Env)
      requires request.params.ExtendParams?
      reads this
    {
      && (var newExpiry := request.params.newExpiry;
        var params := Irn(SESSION_EXTEND_RESPONSE, DAY_IN_SECONDS, false);
        && (!IsSessionValid(old(sessions), request.topic, env.now) ==>
              State() == old(State()).(published := old(published)
                + [ErrorOut(request.topic, request.id, NoMatchingTopic(SESSION, request.topic), params)]))
        && (IsSessionValid(old(sessions), request.topic, env.now) ==>
              var session := old(sessions)[request.topic];
              var error := validator.sessionExtend(newExpiry, session.expiry);
              && (!IsPeerController(session) ==>
                    State() == old(State()).(published := old(published)
                      + [ErrorOut(request.topic, request.id, UnauthorizedExtendRequest(SESSION), params)]))
              && (IsPeerController(session) && error.Some? ==>
                    State() == old(State()).(published := old(published)
                      + [ErrorOut(request.topic, request.id, FromValidation(error.value), params)]))
              && (IsPeerController(session) && error.None? ==>
                    State() == old(State()).(
                      sessions := old(sessions)[request.topic := session.(expiry := newExpiry)],
                      published := old(published) + [ResponseOut(request.topic, JsonRpcResult(request.id, BoolResult(true)), params)],
                      events := old(events) + [SessionExtended(request.topic, newExpiry)]))))
    }

    /**
      `onSessionExtend`: the session must be valid and controlled by the
      peer, and the validator must accept the new expiry against the old
      one; then the new expiry is stored, acknowledged and reported.
     */
    method OnSessionExtend(request: WCRequest, env: Env)
      requires Valid() && request.params.ExtendParams?
      modifies this
      ensures Valid()
      ensures SessionExtendHandled(request, env)
    {
      var newExpiry := request.params.newExpiry;
      var params := Irn(SESSION_EXTEND_RESPONSE, DAY_IN_SECONDS, false);
      if !IsSessionValid(sessions, request.topic, env.now) {
        RespondWithError(request, NoMatchingTopic(SESSION, request.topic), params);
        return;
      }
      var session := sessions[request.topic];
      if !IsPeerController(session) {
        RespondWithError(request, UnauthorizedExtendRequest(SESSION), params);
        return;
      }
      var error := validator.sessionExtend(newExpiry, session.expiry);
      if error.Some? {
        RespondWithError(request, FromValidation(error.value), params);
        return;
      }
      sessions := sessions[request.topic := session.(expiry := newExpiry)];
      RespondWithSuccess(request, params);
      events := events + [SessionExtended(request.topic, newExpiry)];
    }

    /** The effect of `onPing`, as described at `OnPing`. */
    twostate predicate PingAnswered(request: WCRequest)
      reads this
    {
      && (State() == old(State()).(published := old(published)
        + [ResponseOut(request.topic, JsonRpcResult(request.id, BoolResult(true)), Irn(SESSION_PING_RESPONSE, THIRTY_SECONDS, false))]))
    }

    /** `onPing`: every ping, of a pairing or a session, is acknowledged with the session-ping response tag. */
    method OnPing(request: WCRequest)
      modifies this
      ensures PingAnswered(request)
    {
      RespondWithSuccess(request, Irn(SESSION_PING_RESPONSE, THIRTY_SECONDS, false));
    }

    // -------------------------------------------------------------------------
    // Inbound responses

    /**
      `collectJsonRpcResponses`: each peer response goes to the handler of
      the parameters of the request it answers; responses to other requests
      are dropped.
     */
    method OnResponse(response: WCResponse, env: Env)
      requires Valid()
      modifies this
      ensures Valid()
      ensures response.params.SessionProposeParams? ==> ProposalResponseHandled(response, env)
      ensures response.params.SessionSettleParams? ==> SettleResponseHandled(response, env)
      ensures response.params.UpdateNamespacesParams? ==> UpdateResponseHandled(response, env)
      ensures response.params.SessionRequestParams? ==> RequestResponseReported(response)
      ensures var handled := response.params.SessionProposeParams? || response.params.SessionSettleParams?
                             || response.params.UpdateNamespacesParams? || response.params.SessionRequestParams?;
              !handled ==> unchanged(this)
      ensures proposals == old(proposals) && published == old(published)
    {
      match response.params
      case SessionProposeParams(_, _, _) => OnSessionProposalResponse(response, env);
      case SessionSettleParams(_, _, _, _) => OnSessionSettleResponse(response, env);
      case UpdateNamespacesParams(_) => OnSessionUpdateNamespacesResponse(response, env);
      case SessionRequestParams(_, _) => OnSessionRequestResponse(response);
      case _ =>
    }

    /** The effect of `onSessionProposalResponse`, as described at `OnSessionProposalResponse`. */
    twostate predicate ProposalResponseHandled(response: WCResponse, env: Env)
      requires response.params.SessionProposeParams?
      reads this
    {
      && (!IsPairingValid(old(pairings), response.topic, env.now) ==> unchanged(this))
      && (IsPairingValid(old(pairings), response.topic, env.now) ==>
        var t := response.topic;
        var pairing := old(pairings)[t];
        var activated := if pairing.isActive then old(pairings)
                         else old(pairings)[t := pairing.(isActive := true, expiry := deadlines.activePairing)];
        && (response.response.JsonRpcResult? && response.response.result.ParamsResult?
              && response.response.result.p.ApprovalParams? ==>
              var self := response.params.proposer.publicKey;
              var peer := response.response.result.p.responderPublicKey;
              State() == old(State()).(
                pairings := activated,
                keys := old(keys)[agreementTopic(self, peer) := Agreement(self, peer)],
                subscribed := old(subscribed) + {agreementTopic(self, peer)}))
        && (response.response.JsonRpcResult? && !(response.response.result.ParamsResult?
              && response.response.result.p.ApprovalParams?) ==>
              State() == old(State()).(pairings := activated))
        && (response.response.JsonRpcError? ==>
              State() == old(State()).(
                pairings := if pairing.isActive then old(pairings) else old(pairings) - {t},
                events := old(events) + [SessionRejected(t, response.response.error.message)])))
    }

    /**
      `onSessionProposalResponse`: only on a valid pairing. An inactive
      pairing is activated whatever the answer. An approval subscribes to
      the session topic agreed between the proposal's key and the
      responder's key. A rejection deletes the pairing if it was inactive
      when the response arrived, and reports the rejection.
     */
    method OnSessionProposalResponse(response: WCResponse, env: Env)
      requires response.params.SessionProposeParams?
      modifies this
      ensures ProposalResponseHandled(response, env)
    {
      var t := response.topic;
      if !IsPairingValid(pairings, t, env.now) {
        return;
      }
      var pairing := pairings[t];
      if !pairing.isActive {
        pairings := pairings[t := pairing.(isActive := true, expiry := deadlines.activePairing)];
      }
      match response.response
      case JsonRpcResult(_, result) =>
        if result.ParamsResult? && result.p.ApprovalParams? {
          var selfPublicKey := response.params.proposer.publicKey;
          var sessionTopic := agreementTopic(selfPublicKey, result.p.responderPublicKey);
          keys := keys[sessionTopic := Agreement(selfPublicKey, result.p.responderPublicKey)];
          subscribed := subscribed + {sessionTopic};
        }
      case JsonRpcError(_, error) =>
        if !pairing.isActive {
          pairings := pairings - {t};
        }
        events := events + [SessionRejected(t, error.message)];
    }

    /** The effect of `onSessionSettleResponse`, as described at `OnSessionSettleResponse`. */
    twostate predicate SettleResponseHandled(response: WCResponse, env: Env)
      reads this
    {
      && (!IsSessionValid(old(sessions), response.topic, env.now) ==> unchanged(this))
      && (IsSessionValid(old(sessions), response.topic, env.now) ==>
        var t := response.topic;
        var session := old(sessions)[t];
        && (response.response.JsonRpcResult? ==>
              State() == old(State()).(
                sessions := old(sessions)[t := session.(isAcknowledged := true)],
                events := old(events) + [SettledSessionResponse(session)]))
        && (response.response.JsonRpcError? ==>
              State() == old(State()).(
                subscribed := old(subscribed) - {t},
                sessions := old(sessions) - {t},
                keys := old(keys) - {t})))
    }

    /**
      `onSessionSettleResponse`: only on a valid session. An acknowledgement
      marks the session acknowledged and reports the session as it was read
      before the acknowledgement; an error unsubscribes from the session and
      deletes it and its keys.
     */
    method OnSessionSettleResponse(response: WCResponse, env: Env)
      modifies this
      ensures SettleResponseHandled(response, env)
    {
      var t := response.topic;
      if !IsSessionValid(sessions, t, env.now) {
        return;
      }
      var session := sessions[t];
      if response.response.JsonRpcResult? {
        sessions := sessions[t := session.(isAcknowledged := true)];
        events := events + [SettledSessionResponse(session)];
      } else {
        subscribed := subscribed - {t};
        sessions := sessions - {t};
        keys := keys - {t};
      }
    }

    /** The effect of `onSessionUpdateNamespacesResponse`, as described at `OnSessionUpdateNamespacesResponse`. */
    twostate predicate UpdateResponseHandled(response: WCResponse, env: Env)
      reads this
    {
      && (!IsSessionValid(old(sessions), response.topic, env.now) ==> unchanged(this))
      && (IsSessionValid(old(sessions), response.topic, env.now) ==>
        var t := response.topic;
        var id := response.response.id;
        var ts := ExtractTimestamp(id);
        var session := old(sessions)[t];
        var staged := id in old(unackNamespaces) && old(unackNamespaces)[id].0 == t;
        && (!IsNamespaceUpdateFresh(old(namespaceStamps), t, ts) ==> unchanged(this))
        && (IsNamespaceUpdateFresh(old(namespaceStamps), t, ts) && response.response.JsonRpcError? ==>
              State() == old(State()).(events := old(events) + [UpdateNamespacesResponseError(response.response.error.message)]))
        && (IsNamespaceUpdateFresh(old(namespaceStamps), t, ts) && response.response.JsonRpcResult? ==>
              (staged && env.storageOk ==>
                 State() == old(State()).(
                   sessions := WithNamespaces(old(sessions), t, old(unackNamespaces)[id].1),
                   namespaceStamps := old(namespaceStamps)[t := ts],
                   unackNamespaces := old(unackNamespaces) - {id},
                   events := old(events) + [UpdateNamespacesResponseResult(t, session.namespaces)]))
              && (!(staged && env.storageOk) ==>
                 State() == old(State()).(events := old(events) + [UpdateNamespacesResponseError(UNABLE_TO_UPDATE_MESSAGE)]))))
    }

    /**
      `onSessionUpdateNamespacesResponse`: only on a valid session and only
      for a response whose timestamp is strictly newer than the last update
      applied. An acknowledgement applies the namespaces staged under the
      response's id, records the timestamp, drops the staged entry and
      reports the session's namespaces as they were read BEFORE the update;
      with nothing staged for the session, or a storage failure, it reports
      that the update failed. An error reports the peer's message.
     */
    method OnSessionUpdateNamespacesResponse(response: WCResponse, env: Env)
      modifies this
      ensures UpdateResponseHandled(response, env)
    {
      var t := response.topic;
      if !IsSessionValid(sessions, t, env.now) {
        return;
      }
      var session := sessions[t];
      var id := response.response.id;
      var ts := ExtractTimestamp(id);
      if !IsNamespaceUpdateFresh(namespaceStamps, t, ts) {
        return;
      }
      match response.response
      case JsonRpcResult(_, _) =>
        if id in unackNamespaces && unackNamespaces[id].0 == t && env.storageOk {
          sessions := WithNamespaces(sessions, t, unackNamespaces[id].1);
          namespaceStamps := namespaceStamps[t := ts];
          unackNamespaces := unackNamespaces - {id};
          events := events + [UpdateNamespacesResponseResult(t, session.namespaces)];
        } else {
          events := events + [UpdateNamespacesResponseError(UNABLE_TO_UPDATE_MESSAGE)];
        }
      case JsonRpcError(_, error) =>
        events := events + [UpdateNamespacesResponseError(error.message)];
    }

    /** The effect of `onSessionRequestResponse`, as described at `OnSessionRequestResponse`. */
    twostate predicate RequestResponseReported(response: WCResponse)
      requires response.params.SessionRequestParams?
      reads this
    {
      && (State() == old(State()).(events := old(events)
        + [SessionPayloadResponse(response.topic, response.params.chainId, response.params.request.rpcMethod, response.response)]))
    }

    /** `onSessionRequestResponse`: the peer's answer is reported with the request's chain and method. */
    method OnSessionRequestResponse(response: WCResponse)
      requires response.params.SessionRequestParams?
      modifies this
      ensures RequestResponseReported(response)
    {
      events := events + [SessionPayloadResponse(response.topic, response.params.chainId, response.params.request.rpcMethod, response.response)];
    }

    // -------------------------------------------------------------------------
    // Connection and expiry

    /** The expired half of `resubscribeToPairings`: unsubscribe, remove the keys, delete, one pairing at a time. */
    method DropPairings(expired: set<Topic>)
      modifies this
      ensures State() == old(State()).(
        pairings := old(pairings) - expired, keys := old(keys) - expired, subscribed := old(subscribed) - expired)
    {
      ghost var start := State();
      var todo, done := expired, {};
      while todo != {}
        invariant done == expired - todo && todo <= expired
        invariant pairings == start.pairings - done
        invariant keys == start.keys - done
        invariant subscribed == start.subscribed - done
        invariant State() == start.(pairings := pairings, keys := keys, subscribed := subscribed)
        decreases todo
      {
        var t :| t in todo;
        MinusOneMore(start.pairings, done, t);
        MinusOneMore(start.keys, done, t);
        subscribed := subscribed - {t};
        keys := keys - {t};
        pairings := pairings - {t};
        todo, done := todo - {t}, done + {t};
      }
    }

    /** The expired half of `resubscribeToSession`. */
    method DropSessions(expired: set<Topic>)
      modifies this
      ensures State() == old(State()).(
        sessions := old(sessions) - expired, keys := old(keys) - expired, subscribed := old(subscribed) - expired)
    {
      ghost var start := State();
      var todo, done := expired, {};
      while todo != {}
        invariant done == expired - todo && todo <= expired
        invariant sessions == start.sessions - done
        invariant keys == start.keys - done
        invariant subscribed == start.subscribed - done
        invariant State() == start.(sessions := sessions, keys := keys, subscribed := subscribed)
        decreases todo
      {
        var t :| t in todo;
        MinusOneMore(start.sessions, done, t);
        MinusOneMore(start.keys, done, t);
        subscribed := subscribed - {t};
        keys := keys - {t};
        sessions := sessions - {t};
        todo, done := todo - {t}, done + {t};
      }
    }

    /** The valid half of both sweeps: subscribe to each topic in turn. */
    method SubscribeAll(topics: set<Topic>)
      modifies this
      ensures State() == old(State()).(subscribed := old(subscribed) + topics)
    {
      var rest, added := topics, {};
      while rest != {}
        invariant added == topics - rest && rest <= topics
        invariant State() == old(State()).(subscribed := old(subscribed) + added)
        decreases rest
      {
        var t :| t in rest;
        subscribed := subscribed + {t};
        rest, added := rest - {t}, added + {t};
      }
    }

    /**
      `resubscribeToPairings`: every expired pairing is unsubscribed and
      deleted with its keys; every remaining (valid) pairing is subscribed.
     */
    method ResubscribeToPairings(now: int)
      modifies this
      ensures
        var expired := Expired(old(pairings), PairingExpiry, now);
        State() == old(State()).(
          pairings := old(pairings) - expired,
          keys := old(keys) - expired,
          subscribed := old(subscribed) - expired + SettledPairings(old(pairings), now).Keys)
      ensures forall t :: t in pairings ==> IsPairingValid(pairings, t, now) && t in subscribed
    {
      PairingPartition(pairings, now);
      DropPairings(Expired(pairings, PairingExpiry, now));
      SubscribeAll(pairings.Keys);
    }

    /**
      `resubscribeToSession`: every expired session is unsubscribed and
      deleted with its keys; every remaining (valid) session is subscribed.
     */
    method ResubscribeToSessions(now: int)
      modifies this
      ensures
        var expired := Expired(old(sessions), SessionExpiry, now);
        State() == old(State()).(
          sessions := old(sessions) - expired,
          keys := old(keys) - expired,
          subscribed := old(subscribed) - expired + (old(sessions).Keys - expired))
      ensures forall t :: t in sessions ==> IsSessionValid(sessions, t, now) && t in subscribed
    {
      DropSessions(Expired(sessions, SessionExpiry, now));
      SubscribeAll(sessions.Keys);
    }

    /**
      `resubscribeToSequences`: every change of connectivity is reported;
      when the connection becomes available, the pairings and then the
      sessions are swept, after which every stored pairing and session is
      valid and subscribed, except a pairing whose topic was also that of an
      expired session: the session sweep unsubscribes it.
     */
    method OnConnectionAvailability(isAvailable: bool, now: int)
      requires Valid()
      modifies this
      ensures Valid()
      ensures proposals == old(proposals) && published == old(published)
      ensures events == old(events) + [ConnectionState(isAvailable)]
      ensures !isAvailable ==> State() == old(State()).(events := old(events) + [ConnectionState(isAvailable)])
      ensures isAvailable ==>
        && pairings == old(pairings) - Expired(old(pairings), PairingExpiry, now)
        && sessions == old(sessions) - Expired(old(sessions), SessionExpiry, now)
        && keys == old(keys) - Expired(old(pairings), PairingExpiry, now) - Expired(old(sessions), SessionExpiry, now)
        && (forall t :: t in sessions ==> IsSessionValid(sessions, t, now) && t in subscribed)
        && (forall t :: t in pairings ==> IsPairingValid(pairings, t, now))
        && (forall t :: t in pairings && t !in Expired(old(sessions), SessionExpiry, now) ==> t in subscribed)
    {
      events := events + [ConnectionState(isAvailable)];
      if isAvailable {
        ResubscribeToPairings(now);
        ResubscribeToSessions(now);
      }
    }

    /** `setupSequenceExpiration`: an expired sequence is unsubscribed and its keys removed. */
    method OnSequenceExpired(topic: Topic)
      modifies this
      ensures State() == old(State()).(subscribed := old(subscribed) - {topic}, keys := old(keys) - {topic})
    {
      subscribed := subscribed - {topic};
      keys := keys - {topic};
    }

    /** `collectInternalErrors`: each internal error of the relayer is reported as an event. */
    method OnInternalError(message: string)
      modifies this
      ensures State() == old(State()).(events := old(events) + [InternalError(message)])
    {
      events := events + [InternalError(message)];
    }
  }

  /**
    The proposer's side of a handshake on an existing pairing: a session is
    proposed, the responder's approval arrives as the result of that
    proposal, and the responder's settlement arrives on the topic agreed
    between the two public keys. The approval leaves the key agreement
    behind, so the settlement finds the pending proposal: the proposal is
    consumed and the acknowledged session, controlled by the responder, is
    stored under the agreed topic.
   */
  method ProposerHandshake(e: SignEngine, pairingTopic: Topic, namespaces: ProposalNamespaces, proposeEnv: Env,
                           responderPublicKey: KeyHex, relay: RelayProtocolOptions, settlement: ClientParams,
                           settleId: int, env: Env)
    returns (sessionTopic: Topic)
    requires e.Valid()
    requires IsPairingValid(e.pairings, pairingTopic, proposeEnv.now) && IsPairingValid(e.pairings, pairingTopic, env.now)
    requires e.validator.proposalNamespaces(namespaces).None?
    requires settlement.SessionSettleParams? && e.validator.sessionNamespaces(settlement.settleNamespaces, namespaces).None?
    requires env.storageOk
    modifies e
    ensures sessionTopic == e.agreementTopic(proposeEnv.freshKey, responderPublicKey)
    ensures proposeEnv.freshKey !in e.proposals
    ensures sessionTopic in e.sessions
    ensures e.sessions[sessionTopic] == CreateAcknowledgedSession(sessionTopic, settlement, proposeEnv.freshKey, e.metaData, namespaces)
    ensures e.sessions[sessionTopic].isAcknowledged && IsPeerController(e.sessions[sessionTopic])
  {
    var proposed := e.ProposeSequence(namespaces, None, Some(pairingTopic), proposeEnv);
    var proposal := e.proposals[proposeEnv.freshKey];
    var approval := JsonRpcResult(proposal.id, ParamsResult(ApprovalParams(relay, responderPublicKey)));
    e.OnSessionProposalResponse(WCResponse(pairingTopic, WC_SESSION_PROPOSE, approval, proposal.params), env);
    sessionTopic := e.agreementTopic(proposeEnv.freshKey, responderPublicKey);
    e.OnSessionSettle(WCRequest(sessionTopic, settleId, WC_SESSION_SETTLE, settlement), env);
  }
}
