/**
  `SessionVO`: the stored session record, the two controller predicates
  derived from it and its two factories. The wallet side creates an
  unacknowledged session, controlled by itself, when it approves a proposal;
  the dApp side creates an acknowledged session, controlled by the peer that
  settled it, when the settlement request arrives.
 */
module SessionVO {
  import opened Wrappers
  import opened Protocol

  datatype Session = Session(
    topic: Topic,
    expiry: int,
    relayProtocol: string,
    relayData: Option<string>,
    controllerKey: Option<KeyHex>,
    selfPublicKey: KeyHex,
    selfMetaData: Option<MetaData>,
    peerPublicKey: Option<KeyHex>,
    peerMetaData: Option<MetaData>,
    namespaces: SessionNamespaces,
    proposalNamespaces: ProposalNamespaces,
    isAcknowledged: bool)

  /**
    `isPeerController`: the peer key equals the controller key, comparing the
    nullable hex strings, so two absent keys also compare equal.
   */
  function IsPeerController(s: Session): (b: bool)
    ensures s.controllerKey.None? ==> (b <==> s.peerPublicKey.None?)
    ensures s.controllerKey.Some? ==> (b <==> s.peerPublicKey.Some? && s.peerPublicKey.value == s.controllerKey.value)
  {
    s.peerPublicKey == s.controllerKey
  }

  /** `isSelfController`: the controller key is present and equals the own key. */
  function IsSelfController(s: Session): (b: bool)
    ensures b <==> s.controllerKey.Some? && s.controllerKey.value == s.selfPublicKey
  {
    s.controllerKey == Some(s.selfPublicKey)
  }

  /** The two controller predicates of one session hold together only when both keys are the same. */
  lemma BothControllersOnlyWithSameKey(s: Session)
    requires IsSelfController(s) && IsPeerController(s)
    ensures s.peerPublicKey == Some(s.selfPublicKey)
  {
  }

  /**
    `createUnacknowledgedSession`: the approver's session. The peer is the
    proposer, the relay is the proposal's first one (the source takes
    `relays.first()`, which throws on an empty list) and the approver itself
    is the controller.
   */
  function CreateUnacknowledgedSession(
    sessionTopic: Topic, proposal: ClientParams, selfParticipant: SessionParticipant,
    sessionExpiry: int, namespaces: SessionNamespaces): (s: Session)
    requires proposal.SessionProposeParams? && |proposal.relays| > 0
    ensures s.topic == sessionTopic && s.expiry == sessionExpiry && !s.isAcknowledged
    ensures s.relayProtocol == proposal.relays[0].protocol && s.relayData == proposal.relays[0].data
    ensures s.peerPublicKey == Some(proposal.proposer.publicKey) && s.peerMetaData == Some(proposal.proposer.metadata)
    ensures s.selfPublicKey == selfParticipant.publicKey && s.selfMetaData == Some(selfParticipant.metadata)
    ensures s.namespaces == namespaces && s.proposalNamespaces == proposal.namespaces
    ensures s.controllerKey == Some(selfParticipant.publicKey) && IsSelfController(s)
    ensures IsPeerController(s) <==> proposal.proposer.publicKey == selfParticipant.publicKey
  {
    Session(
      sessionTopic, sessionExpiry,
      proposal.relays[0].protocol, proposal.relays[0].data,
      Some(selfParticipant.publicKey),
      selfParticipant.publicKey, Some(selfParticipant.metadata),
      Some(proposal.proposer.publicKey), Some(proposal.proposer.metadata),
      namespaces, proposal.namespaces, false)
  }

  /**
    `createAcknowledgedSession`: the proposer's session, built from the
    settlement request. The settling peer is the controller, the expiry is the
    one the peer settled on.
   */
  function CreateAcknowledgedSession(
    sessionTopic: Topic, settle: ClientParams, selfPublicKey: KeyHex,
    selfMetadata: MetaData, proposalNamespaces: ProposalNamespaces): (s: Session)
    requires settle.SessionSettleParams?
    ensures s.topic == sessionTopic && s.expiry == settle.expiry && s.isAcknowledged
    ensures s.relayProtocol == settle.relay.protocol && s.relayData == settle.relay.data
    ensures s.peerPublicKey == Some(settle.controller.publicKey) && s.peerMetaData == Some(settle.controller.metadata)
    ensures s.selfPublicKey == selfPublicKey && s.selfMetaData == Some(selfMetadata)
    ensures s.namespaces == settle.settleNamespaces && s.proposalNamespaces == proposalNamespaces
    ensures s.controllerKey == Some(settle.controller.publicKey) && IsPeerController(s)
    ensures IsSelfController(s) <==> selfPublicKey == settle.controller.publicKey
  {
    Session(
      sessionTopic, settle.expiry,
      settle.relay.protocol, settle.relay.data,
      Some(settle.controller.publicKey),
      selfPublicKey, Some(selfMetadata),
      Some(settle.controller.publicKey), Some(settle.controller.metadata),
      settle.settleNamespaces, proposalNamespaces, true)
  }
}
