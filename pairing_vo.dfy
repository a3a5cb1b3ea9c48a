/**
  `PairingVO`: the stored pairing record and its two factories. A pairing is
  created inactive (short expiry) by the side that proposes, and active (long
  expiry) by the side that consumes a connection URI.
 */
module PairingVO {
  import opened Wrappers
  import opened Protocol
  import opened Expiration

  datatype Pairing = Pairing(
    topic: Topic,
    expiry: int,
    peerMetaData: Option<MetaData>,
    relayProtocol: string,
    relayData: Option<string>,
    uri: string,
    isActive: bool)

  /** `EngineDO.WalletConnectUri`: what a connection URI carries. */
  datatype WalletConnectUri = WalletConnectUri(topic: Topic, symKey: string, relay: RelayProtocolOptions, version: string)

  /**
    `toAbsoluteString()`: the textual URI,
    `wc:<topic>@<version>?relay-protocol=<protocol>[&relay-data=<data>]&symKey=<key>`.
   */
  function ToAbsoluteString(u: WalletConnectUri): (s: string)
    ensures |s| > 3 + |u.topic| && s[..3] == "wc:" && s[3..3 + |u.topic|] == u.topic
  {
    var query := "relay-protocol=" + u.relay.protocol
      + (match u.relay.data case Some(data) => "&relay-data=" + data case None => "");
    var s := "wc:" + u.topic + "@" + u.version + "?" + query + "&symKey=" + u.symKey;
    assert s == "wc:" + u.topic + ("@" + u.version + "?" + query + "&symKey=" + u.symKey);
    s
  }

  /** `createInactivePairing`: the proposer's pairing, stored with the URI string it was given. */
  function CreateInactivePairing(d: Deadlines, topic: Topic, relay: RelayProtocolOptions, uri: string): (p: Pairing)
    ensures p.topic == topic && !p.isActive && p.expiry == d.inactivePairing
    ensures p.relayProtocol == relay.protocol && p.relayData == relay.data
    ensures p.peerMetaData == None && p.uri == uri
  {
    Pairing(topic, d.inactivePairing, None, relay.protocol, relay.data, uri, false)
  }

  /** `createActivePairing`: the consumer's pairing, addressed by the URI's topic. */
  function CreateActivePairing(d: Deadlines, u: WalletConnectUri): (p: Pairing)
    ensures p.topic == u.topic && p.isActive && p.expiry == d.activePairing
    ensures p.relayProtocol == u.relay.protocol && p.relayData == u.relay.data
    ensures p.peerMetaData == None && p.uri == ToAbsoluteString(u)
  {
    Pairing(u.topic, d.activePairing, None, u.relay.protocol, u.relay.data, ToAbsoluteString(u), true)
  }

  /**
    With the deadlines loaded at any one instant, a freshly proposed
    (inactive) pairing lapses strictly before a freshly consumed (active) one.
   */
  lemma InactiveLapsesFirst(loadTime: int, topic: Topic, relay: RelayProtocolOptions, uri: string, u: WalletConnectUri)
    ensures CreateInactivePairing(LoadedAt(loadTime), topic, relay, uri).expiry
          < CreateActivePairing(LoadedAt(loadTime), u).expiry
  {
  }
}
