# Sign engine of the WalletConnect Android client, in Dafny

This project models the core of the sign module of a WalletConnect v2
Android client. A *pairing* is a long-lived encrypted channel between a dapp
and a wallet. It is opened by a `wc:` URI, which carries a relay topic and a
symmetric key. A *session* is a settled agreement on that pairing: it grants
the dapp some chains, methods and events (its *namespaces*) and has its own
topic, derived from a key agreement. Every message is a JSON-RPC request or
response, encrypted and published on a topic of the relay.

The model covers:

- **`SignEngine`** — the state machine for proposing, pairing, approving,
  rejecting, updating, extending, pinging and disconnecting. It handles every
  inbound request and response, and sweeps expired sequences on reconnect.
- **`RelayerInteractor`** — the relay client: publishing, responding,
  subscriptions, the request history and the routing of decrypted messages.
- **`KeyChain`** — the key store and its hex encoding.
- **Value types** — the session and pairing records (`SessionVO`,
  `PairingVO`), the time-to-live JSON adapter (`TtlAdapter`) and the mappers
  between response forms (`RelayerMapper`).

How it is modelled:

- **Engine and relay client.** Both are classes whose fields are the mutable
  state of the source:
  - the proposal table;
  - the relay client's subscription map and history;
  - the logs of what each one emits.
- **Collaborators the engine sees only through interfaces.** The sequence
  storage, the key management, the relay and the application's event stream
  are abstract state of the engine:
  - maps of pairings, sessions and key material;
  - a set of subscribed topics;
  - logs of published messages and emitted events.
- **Collaborators whose code is not part of this model.** These are function
  values fixed at construction:
  - the validator;
  - the key agreement's topic derivation;
  - the JSON serializer;
  - the cipher.
- **Nondeterministic inputs.** The clock, generated ids, keys and topics, and
  whether a storage write or a relay publish succeeds are one `Env` value
  passed to each call.
- **Module layout.** `EngineSpec` holds the pure rules the engine applies:
  - sequence validity;
  - the settled lists;
  - the ping choice;
  - the expired/valid partition of the sweep;
  - the freshness of namespace updates.

## Model

| member | source | states |
|---|---|---|
| Expiration.LoadedAt | android/app/src/main/java/com/nduwallet/sign/src/main/kotlin/com/walletconnect/sign/util/Expiration.kt:5-9 | the three deadlines are the load time plus five minutes, one month and one week; an inactive pairing lapses before a session, and a session before an active pairing |
| PairingVO.ToAbsoluteString | android/app/src/main/java/com/nduwallet/sign/src/main/kotlin/com/walletconnect/sign/core/model/vo/sequence/PairingVO.kt:35-44 | the URI string of a pairing starts with `wc:` followed by its topic |
| PairingVO.CreateInactivePairing | android/app/src/main/java/com/nduwallet/sign/src/main/kotlin/com/walletconnect/sign/core/model/vo/sequence/PairingVO.kt:24-33 | an inactive pairing on the topic and relay, holding the URI, expiring at the inactive-pairing deadline, with no peer metadata |
| PairingVO.CreateActivePairing | android/app/src/main/java/com/nduwallet/sign/src/main/kotlin/com/walletconnect/sign/core/model/vo/sequence/PairingVO.kt:35-44 | an active pairing on the URI's topic and relay, holding the URI's string, expiring at the active-pairing deadline |
| PairingVO.InactiveLapsesFirst | android/app/src/main/java/com/nduwallet/sign/src/main/kotlin/com/walletconnect/sign/core/model/vo/sequence/PairingVO.kt:24-44 | a pairing created inactive expires before one created active from the same load time |
| SessionVO.IsPeerController | android/app/src/main/java/com/nduwallet/sign/src/main/kotlin/com/walletconnect/sign/core/model/vo/sequence/SessionVO.kt:29 | with no controller key: true exactly when the peer key is absent too (two nulls compare equal); otherwise true exactly when the peer key is present and equal to it |
| SessionVO.IsSelfController | android/app/src/main/java/com/nduwallet/sign/src/main/kotlin/com/walletconnect/sign/core/model/vo/sequence/SessionVO.kt:30 | true exactly when a controller key is present and equals the own public key |
| SessionVO.BothControllersOnlyWithSameKey | android/app/src/main/java/com/nduwallet/sign/src/main/kotlin/com/walletconnect/sign/core/model/vo/sequence/SessionVO.kt:29-30 | both controller flags hold together only when the peer's key is the self key |
| SessionVO.CreateUnacknowledgedSession | android/app/src/main/java/com/nduwallet/sign/src/main/kotlin/com/walletconnect/sign/core/model/vo/sequence/SessionVO.kt:35-56 | every field taken from the proposal's first relay, the proposer and the self participant; not acknowledged; this side is controller, and the peer is controller exactly when its key is the self key |
| SessionVO.CreateAcknowledgedSession | android/app/src/main/java/com/nduwallet/sign/src/main/kotlin/com/walletconnect/sign/core/model/vo/sequence/SessionVO.kt:58-80 | every field taken from the settlement; acknowledged; the peer (the settling controller) is controller, and this side is too exactly when the keys coincide |
| KeyChain.DigitValue | android/app/src/main/java/com/nduwallet/sign/src/main/kotlin/com/walletconnect/sign/crypto/data/keystore/KeyChain.kt:42-50 | a hexadecimal digit's value is below 16 |
| KeyChain.DigitRoundTrip | android/app/src/main/java/com/nduwallet/sign/src/main/kotlin/com/walletconnect/sign/crypto/data/keystore/KeyChain.kt:42-50 | the digit written for a value reads back as that value |
| KeyChain.BytesToHex | android/app/src/main/java/com/nduwallet/sign/src/main/kotlin/com/walletconnect/sign/crypto/data/keystore/KeyChain.kt:42 | two hex digits per byte |
| KeyChain.HexToBytes | android/app/src/main/java/com/nduwallet/sign/src/main/kotlin/com/walletconnect/sign/crypto/data/keystore/KeyChain.kt:45 | one byte per two hex digits |
| KeyChain.HexRoundTrip | android/app/src/main/java/com/nduwallet/sign/src/main/kotlin/com/walletconnect/sign/crypto/data/keystore/KeyChain.kt:42-47 | reading back the hex text of any byte string gives the same bytes (by induction) |
| KeyChain.ConcatKeys | android/app/src/main/java/com/nduwallet/sign/src/main/kotlin/com/walletconnect/sign/crypto/data/keystore/KeyChain.kt:42 | the stored text decodes to the bytes of the first key followed by those of the second |
| KeyChain.SplitKeys | android/app/src/main/java/com/nduwallet/sign/src/main/kotlin/com/walletconnect/sign/crypto/data/keystore/KeyChain.kt:44-50 | the first half and the second half of the decoded bytes, the first half holding half of them rounded down |
| KeyChain.SplitOfConcat | android/app/src/main/java/com/nduwallet/sign/src/main/kotlin/com/walletconnect/sign/crypto/data/keystore/KeyChain.kt:23-32 | two keys of equal length stored together are split back into exactly those two keys |
| KeyChain.KeyChain.constructor | android/app/src/main/java/com/nduwallet/sign/src/main/kotlin/com/walletconnect/sign/crypto/data/keystore/KeyChain.kt:13 | an empty key store |
| KeyChain.KeyChain.SetSymmetricKey | android/app/src/main/java/com/nduwallet/sign/src/main/kotlin/com/walletconnect/sign/crypto/data/keystore/KeyChain.kt:15-17 | the tag maps to the key; nothing else changes |
| KeyChain.KeyChain.GetSymmetricKey | android/app/src/main/java/com/nduwallet/sign/src/main/kotlin/com/walletconnect/sign/crypto/data/keystore/KeyChain.kt:19-21 | the stored text of the tag, or the empty string when there is none |
| KeyChain.KeyChain.SetKeys | android/app/src/main/java/com/nduwallet/sign/src/main/kotlin/com/walletconnect/sign/crypto/data/keystore/KeyChain.kt:23-26 | the tag maps to the concatenation of the two keys |
| KeyChain.KeyChain.GetKeys | android/app/src/main/java/com/nduwallet/sign/src/main/kotlin/com/walletconnect/sign/crypto/data/keystore/KeyChain.kt:28-32 | the two halves of the stored concatenation, or the `unable to find keys` error for an unknown tag |
| KeyChain.KeyChain.DeleteKeys | android/app/src/main/java/com/nduwallet/sign/src/main/kotlin/com/walletconnect/sign/crypto/data/keystore/KeyChain.kt:34-36 | the tag is removed and every other tag keeps its value |
| KeyChain.KeyChain.CheckKeys | android/app/src/main/java/com/nduwallet/sign/src/main/kotlin/com/walletconnect/sign/crypto/data/keystore/KeyChain.kt:38-40 | true exactly when the tag is stored |
| KeyChain.SharedTagSpace | android/app/src/main/java/com/nduwallet/sign/src/main/kotlin/com/walletconnect/sign/crypto/data/keystore/KeyChain.kt:15-40 | symmetric keys and key pairs share one tag space: a symmetric key reads back unchanged, a pair stored later under the same tag replaces it (the symmetric reader then sees the concatenation), the pair reads back as its two keys, and deleting removes either kind |
| TtlAdapter.FromJson | android/app/src/main/java/com/nduwallet/sign/src/main/kotlin/com/walletconnect/sign/core/adapters/TtlAdapter.kt:11-24 | a number next in the input that is a whole Long becomes the time-to-live and is consumed; a fractional or out-of-range number makes `nextLong` throw; anything else (end of input, null, another token) gives none and consumes nothing |
| TtlAdapter.NextLong | android/app/src/main/java/com/nduwallet/sign/src/main/kotlin/com/walletconnect/sign/core/adapters/TtlAdapter.kt:16 | succeeds exactly for a whole number in the Long range, with that number; otherwise the data exception |
| TtlAdapter.ToJson | android/app/src/main/java/com/nduwallet/sign/src/main/kotlin/com/walletconnect/sign/core/adapters/TtlAdapter.kt:28-34 | exactly one number is written after what was written before: the seconds, or 0 for a missing value |
| TtlAdapter.RoundTrip | android/app/src/main/java/com/nduwallet/sign/src/main/kotlin/com/walletconnect/sign/core/adapters/TtlAdapter.kt:11-34 | reading back what was written gives the value written (its seconds being a Long), and a missing value comes back as zero seconds |
| TtlAdapter.NullBecomesZero | android/app/src/main/java/com/nduwallet/sign/src/main/kotlin/com/walletconnect/sign/core/adapters/TtlAdapter.kt:28-34 | a missing time-to-live does not survive the round trip: it becomes zero, not missing |
| TtlAdapter.NonLongNumbersAreRejected | android/app/src/main/java/com/nduwallet/sign/src/main/kotlin/com/walletconnect/sign/core/adapters/TtlAdapter.kt:15-17 | 1.5 seconds and 2^63 seconds make reading fail; 1000.0 is read |
| RelayerMapper.ToWireResult | android/app/src/main/java/com/nduwallet/sign/src/main/kotlin/com/walletconnect/sign/json_rpc/model/RelayerMapper.kt:20-22 | the same id and result |
| RelayerMapper.ToWireError | android/app/src/main/java/com/nduwallet/sign/src/main/kotlin/com/walletconnect/sign/json_rpc/model/RelayerMapper.kt:24-26 | the same id, code and message |
| RelayerMapper.ToWireResponse | android/app/src/main/java/com/nduwallet/sign/src/main/kotlin/com/walletconnect/sign/json_rpc/model/RelayerMapper.kt:14-18 | a result stays a result and an error an error, with id, result, code and message kept |
| RelayerMapper.ToJsonRpcErrorVO | android/app/src/main/java/com/nduwallet/sign/src/main/kotlin/com/walletconnect/sign/json_rpc/model/RelayerMapper.kt:28-30 | the same id, code and message |
| RelayerMapper.ErrorRoundTrip | android/app/src/main/java/com/nduwallet/sign/src/main/kotlin/com/walletconnect/sign/json_rpc/model/RelayerMapper.kt:24-30 | an error taken to the wire form and back is unchanged |
| RelayerMapper.WireErrorRoundTrip | android/app/src/main/java/com/nduwallet/sign/src/main/kotlin/com/walletconnect/sign/json_rpc/model/RelayerMapper.kt:14-30 | a wire error taken to the engine form and back is unchanged |
| RelayerMapper.ToWireResponseInjective | android/app/src/main/java/com/nduwallet/sign/src/main/kotlin/com/walletconnect/sign/json_rpc/model/RelayerMapper.kt:14-26 | two responses with the same wire form are the same response |
| RelayerMapper.ToWCResponse | android/app/src/main/java/com/nduwallet/sign/src/main/kotlin/com/walletconnect/sign/json_rpc/model/RelayerMapper.kt:32-34 | the history entry's topic and method with the given response and parameters |
| RelayerMapper.ToPendingRequestVO | android/app/src/main/java/com/nduwallet/sign/src/main/kotlin/com/walletconnect/sign/json_rpc/model/RelayerMapper.kt:36-44 | the entry's id and topic with the request's method, chain and parameters |
| RelayerMapper.ToRelay | android/app/src/main/java/com/nduwallet/sign/src/main/kotlin/com/walletconnect/sign/json_rpc/model/RelayerMapper.kt:46-47 | the tag's numeric id, the time-to-live in seconds and the prompt flag |
| RelayerInteractor.SetRequest | android/app/src/main/java/com/nduwallet/sign/src/main/kotlin/com/walletconnect/sign/json_rpc/domain/RelayerInteractor.kt:89-109 | a request is recorded only if its id is not yet in the history; a known id leaves the history unchanged |
| RelayerInteractor.AdmissionIsAtMostOnce | android/app/src/main/java/com/nduwallet/sign/src/main/kotlin/com/walletconnect/sign/json_rpc/domain/RelayerInteractor.kt:89-109 | after a request is recorded, the same id is refused |
| RelayerInteractor.UpdateWithResponse | android/app/src/main/java/com/nduwallet/sign/src/main/kotlin/com/walletconnect/sign/json_rpc/domain/RelayerInteractor.kt:236-255 | a known id gets the response attached and its entry returned; an unknown id gives nothing and changes nothing |
| RelayerInteractor.DeleteRequests | android/app/src/main/java/com/nduwallet/sign/src/main/kotlin/com/walletconnect/sign/json_rpc/domain/RelayerInteractor.kt:183-197 | exactly the entries of other topics remain, unchanged |
| RelayerInteractor.PendingRequests | android/app/src/main/java/com/nduwallet/sign/src/main/kotlin/com/walletconnect/sign/json_rpc/domain/RelayerInteractor.kt:199-203 | exactly the session requests on the topic that have no response yet, each mapped to a pending request |
| RelayerInteractor.AnsweredIsNotPending | android/app/src/main/java/com/nduwallet/sign/src/main/kotlin/com/walletconnect/sign/json_rpc/domain/RelayerInteractor.kt:199-203 | a request that has received a response is no longer pending |
| RelayerInteractor.AdmittedRequestIsPending | android/app/src/main/java/com/nduwallet/sign/src/main/kotlin/com/walletconnect/sign/json_rpc/domain/RelayerInteractor.kt:199-203 | a newly recorded session request is pending on its topic |
| RelayerInteractor.DeletedTopicHasNothingPending | android/app/src/main/java/com/nduwallet/sign/src/main/kotlin/com/walletconnect/sign/json_rpc/domain/RelayerInteractor.kt:183-203 | after a topic's history is deleted, nothing is pending on it |
| RelayerInteractor.ToWalletConnectException | android/app/src/main/java/com/nduwallet/sign/src/main/kotlin/com/walletconnect/sign/json_rpc/domain/RelayerInteractor.kt:59-68 | a message containing 401 is a missing project id, otherwise one containing 403 an invalid project id, otherwise a generic error |
| RelayerInteractor.Classify | android/app/src/main/java/com/nduwallet/sign/src/main/kotlin/com/walletconnect/sign/json_rpc/domain/RelayerInteractor.kt:218-226 | a message is a request if it parses as one, else a result, else an error, else unclassified, in that order |
| RelayerInteractor.RelayerInteractor.constructor | android/app/src/main/java/com/nduwallet/sign/src/main/kotlin/com/walletconnect/sign/json_rpc/domain/RelayerInteractor.kt:33-57 | no connection, no subscriptions, empty logs, the given history |
| RelayerInteractor.RelayerInteractor.IsConnectionAvailable | android/app/src/main/java/com/nduwallet/sign/src/main/kotlin/com/walletconnect/sign/json_rpc/domain/RelayerInteractor.kt:50-54 | the socket is open and the network is reachable (definition; partner: `CheckConnectionWorking`) |
| RelayerInteractor.RelayerInteractor.CheckConnectionWorking | android/app/src/main/java/com/nduwallet/sign/src/main/kotlin/com/walletconnect/sign/json_rpc/domain/RelayerInteractor.kt:83-87 | succeeds exactly when the socket is open and the network available, else fails with the no-connection error |
| RelayerInteractor.RelayerInteractor.PublishJsonRpcRequests | android/app/src/main/java/com/nduwallet/sign/src/main/kotlin/com/walletconnect/sign/json_rpc/domain/RelayerInteractor.kt:89-109 | without a connection it throws `MissingInternetConnection` before anything else, changing nothing and firing no callback; a request id already in history publishes nothing and fires no callback; otherwise the request is recorded, its encrypted envelope published, and exactly one callback fires, telling whether the relay accepted it |
| RelayerInteractor.RelayerInteractor.PublishJsonRpcResponse | android/app/src/main/java/com/nduwallet/sign/src/main/kotlin/com/walletconnect/sign/json_rpc/domain/RelayerInteractor.kt:111-133 | without a connection it throws `MissingInternetConnection` before anything else, changing nothing and firing no callback; otherwise the encrypted response is published, and only when the relay accepts it does the request's history entry get the response |
| RelayerInteractor.RelayerInteractor.RespondWithParams | android/app/src/main/java/com/nduwallet/sign/src/main/kotlin/com/walletconnect/sign/json_rpc/domain/RelayerInteractor.kt:135-140 | publishes a result holding the parameters, with the request's id, on the request's topic |
| RelayerInteractor.RelayerInteractor.RespondWithSuccess | android/app/src/main/java/com/nduwallet/sign/src/main/kotlin/com/walletconnect/sign/json_rpc/domain/RelayerInteractor.kt:142-151 | publishes the result `true` with the request's id; a failure is logged as an internal error |
| RelayerInteractor.RelayerInteractor.RespondWithError | android/app/src/main/java/com/nduwallet/sign/src/main/kotlin/com/walletconnect/sign/json_rpc/domain/RelayerInteractor.kt:153-171 | publishes the error's code and message with the request's id; a failure reaches only the caller's callback |
| SignEngine.SignEngine.RespondWithSuccess | android/app/src/main/java/com/nduwallet/sign/src/main/kotlin/com/walletconnect/sign/json_rpc/domain/RelayerInteractor.kt:142-151 | the engine-side call: exactly one response `true` carrying the request's id is published on the request's topic; nothing else changes |
| SignEngine.SignEngine.RespondWithError | android/app/src/main/java/com/nduwallet/sign/src/main/kotlin/com/walletconnect/sign/json_rpc/domain/RelayerInteractor.kt:153-171 | the engine-side call: exactly one error carrying the request's id and the fault is published on the request's topic; nothing else changes |
| RelayerInteractor.RelayerInteractor.Subscribe | android/app/src/main/java/com/nduwallet/sign/src/main/kotlin/com/walletconnect/sign/json_rpc/domain/RelayerInteractor.kt:173-181 | without a connection a failure and nothing else; otherwise the subscription id acknowledged by the relay is recorded for the topic |
| RelayerInteractor.RelayerInteractor.Unsubscribe | android/app/src/main/java/com/nduwallet/sign/src/main/kotlin/com/walletconnect/sign/json_rpc/domain/RelayerInteractor.kt:183-197 | without a connection a failure; a known topic accepted by the relay loses its subscription and its history; otherwise nothing changes |
| RelayerInteractor.RelayerInteractor.HandleError | android/app/src/main/java/com/nduwallet/sign/src/main/kotlin/com/walletconnect/sign/json_rpc/domain/RelayerInteractor.kt:265-270 | the message is appended to the internal errors and nothing else changes |
| RelayerInteractor.RelayerInteractor.OnSubscriptionRequest | android/app/src/main/java/com/nduwallet/sign/src/main/kotlin/com/walletconnect/sign/json_rpc/domain/RelayerInteractor.kt:205-216 | once the collection has ended nothing changes; a message that does not decrypt is an internal error and ends the collection; one that does has exactly the effect `manageSubscriptions` has on the plaintext and its topic |
| RelayerInteractor.RelayerInteractor.ManageSubscriptions | android/app/src/main/java/com/nduwallet/sign/src/main/kotlin/com/walletconnect/sign/json_rpc/domain/RelayerInteractor.kt:218-226 | per classification: a request has the effect of `handleRequest`, a result that of `handleJsonRpcResult`, an error that of `handleJsonRpcError`, anything else is one internal error and nothing more |
| RelayerInteractor.RelayerInteractor.HandleRequest | android/app/src/main/java/com/nduwallet/sign/src/main/kotlin/com/walletconnect/sign/json_rpc/domain/RelayerInteractor.kt:228-234 | a request whose id is already in history is dropped; a new one is recorded and, if its parameters parse, emitted with its topic |
| RelayerInteractor.RelayerInteractor.HandleJsonRpcResult | android/app/src/main/java/com/nduwallet/sign/src/main/kotlin/com/walletconnect/sign/json_rpc/domain/RelayerInteractor.kt:236-245 | a result for a recorded request updates the history and emits a peer response with the recorded topic, method and parameters; an unknown id is dropped |
| RelayerInteractor.RelayerInteractor.HandleJsonRpcError | android/app/src/main/java/com/nduwallet/sign/src/main/kotlin/com/walletconnect/sign/json_rpc/domain/RelayerInteractor.kt:247-255 | the same for an error response |
| RelayerInteractor.RelayerInteractor.SetIsWSSConnectionOpened | android/app/src/main/java/com/nduwallet/sign/src/main/kotlin/com/walletconnect/sign/json_rpc/domain/RelayerInteractor.kt:257-263 | opening sets the socket flag, closing or failure clears it, other events keep it; availability is socket and network together |
| RelayerInteractor.RelayerInteractor.SetIsNetworkAvailable | android/app/src/main/java/com/nduwallet/sign/src/main/kotlin/com/walletconnect/sign/json_rpc/domain/RelayerInteractor.kt:49-54 | the network flag takes the new value; availability follows it |
| RelayerInteractor.RelayerInteractor.OnRelayEvent | android/app/src/main/java/com/nduwallet/sign/src/main/kotlin/com/walletconnect/sign/json_rpc/domain/RelayerInteractor.kt:70-81 | a connection failure, and only it, is reported as the exception derived from its message; the socket flag follows the event; the network flag, subscriptions, history, outbound log, internal-error log and both response channels are unchanged |
| EngineSpec.SettledSessions | android/app/src/main/java/com/nduwallet/sign/src/main/kotlin/com/walletconnect/sign/engine/domain/SignEngine.kt:420-424 | exactly the acknowledged sessions that have not expired |
| EngineSpec.SettledPairings | android/app/src/main/java/com/nduwallet/sign/src/main/kotlin/com/walletconnect/sign/engine/domain/SignEngine.kt:426-430 | exactly the pairings that have not expired |
| EngineSpec.IsSequenceValid | android/app/src/main/java/com/nduwallet/sign/src/main/kotlin/com/walletconnect/sign/engine/domain/SignEngine.kt:791 | a sequence is valid while its expiry is strictly after the current time (definition; partner: `EngineSpec.ValidityOnlyLapses`) |
| EngineSpec.IsPairingValid | android/app/src/main/java/com/nduwallet/sign/src/main/kotlin/com/walletconnect/sign/engine/domain/SignEngine.kt:428 | a pairing is stored under the topic and valid (definition; partners: `EngineSpec.SettledPairings`, `EngineSpec.PingTargetOf`) |
| EngineSpec.IsSessionValid | android/app/src/main/java/com/nduwallet/sign/src/main/kotlin/com/walletconnect/sign/engine/domain/SignEngine.kt:422 | a session is stored under the topic and valid (definition; partners: `EngineSpec.SettledSessions`, `EngineSpec.PingTargetOf`) |
| EngineSpec.ValidityOnlyLapses | android/app/src/main/java/com/nduwallet/sign/src/main/kotlin/com/walletconnect/sign/engine/domain/SignEngine.kt:420-430 | with the stores unchanged, a pairing or session valid at a later time was valid at any earlier one, so the settled lists only shrink as time passes |
| EngineSpec.PingTargetOf | android/app/src/main/java/com/nduwallet/sign/src/main/kotlin/com/walletconnect/sign/engine/domain/SignEngine.kt:310-323 | a session ping exactly when the session is valid, a pairing ping exactly when only the pairing is, nothing to ping exactly when neither is |
| EngineSpec.Expired | android/app/src/main/java/com/nduwallet/sign/src/main/kotlin/com/walletconnect/sign/engine/domain/SignEngine.kt:789-810 | exactly the stored sequences (pairings or sessions) whose expiry is no longer after now |
| EngineSpec.PairingPartition | android/app/src/main/java/com/nduwallet/sign/src/main/kotlin/com/walletconnect/sign/engine/domain/SignEngine.kt:789-804 | expired and settled pairings are disjoint, cover the stored ones, and removing the expired leaves the settled |
| EngineSpec.SessionPartition | android/app/src/main/java/com/nduwallet/sign/src/main/kotlin/com/walletconnect/sign/engine/domain/SignEngine.kt:806-820 | removing the expired sessions leaves exactly the valid ones; no settled session is expired |
| EngineSpec.ExtractTimestamp | android/app/src/main/java/com/nduwallet/sign/src/main/kotlin/com/walletconnect/sign/engine/domain/SignEngine.kt:622 | the id's value in thousands, truncated toward zero, for either sign |
| EngineSpec.AppliedUpdateCannotBeReplayed | android/app/src/main/java/com/nduwallet/sign/src/main/kotlin/com/walletconnect/sign/engine/domain/SignEngine.kt:622-625 | once an update's timestamp is applied, it and every older one are refused and any newer one is accepted |
| SignEngine.UpsertPeerMetadata | android/app/src/main/java/com/nduwallet/sign/src/main/kotlin/com/walletconnect/sign/engine/domain/SignEngine.kt:505 | the pairing on the topic, if stored, gets the peer's metadata; every other pairing is unchanged |
| SignEngine.WithNamespaces | android/app/src/main/java/com/nduwallet/sign/src/main/kotlin/com/walletconnect/sign/engine/domain/SignEngine.kt:627 | the session's namespaces are replaced and nothing else changes |
| SignEngine.SignEngine.constructor | android/app/src/main/java/com/nduwallet/sign/src/main/kotlin/com/walletconnect/sign/engine/domain/SignEngine.kt:41-56 | the stored pairings, sessions and keys, no pending proposals, nothing subscribed or published, deadlines taken at load time |
| SignEngine.SignEngine.ProposeSession | android/app/src/main/java/com/nduwallet/sign/src/main/kotlin/com/walletconnect/sign/engine/domain/SignEngine.kt:72-97 | invalid namespaces throw before any effect; otherwise a key pair is stored, the proposal kept under its public key, the pairing topic subscribed and the proposal published for five minutes with the prompt flag |
| SignEngine.SignEngine.ProposeSequence | android/app/src/main/java/com/nduwallet/sign/src/main/kotlin/com/walletconnect/sign/engine/domain/SignEngine.kt:65-111 | an invalid or missing pairing throws and changes nothing; a valid one proposes with the pairing's relay; without a topic a new pairing is proposed, and after invalid namespaces it remains stored, keyed and subscribed |
| SignEngine.ProposalRelays | android/app/src/main/java/com/nduwallet/sign/src/main/kotlin/com/walletconnect/sign/engine/domain/SignEngine.kt:82 | the stored pairing's relays when there is a pairing; otherwise the caller's relays when given; otherwise the single default `irn` relay |
| SignEngine.SignEngine.ProposePairing | android/app/src/main/java/com/nduwallet/sign/src/main/kotlin/com/walletconnect/sign/engine/domain/SignEngine.kt:113-134 | an inactive pairing with a fresh symmetric key and a version-2 URI is stored and subscribed before the session is proposed; a storage failure removes the key, unsubscribes and reports the failure |
| SignEngine.SignEngine.Pair | android/app/src/main/java/com/nduwallet/sign/src/main/kotlin/com/walletconnect/sign/engine/domain/SignEngine.kt:136-155 | a malformed URI and a URI of a valid pairing throw and change nothing; otherwise key, active pairing and subscription, all undone when storage fails |
| SignEngine.SignEngine.Reject | android/app/src/main/java/com/nduwallet/sign/src/main/kotlin/com/walletconnect/sign/engine/domain/SignEngine.kt:157-164 | an unknown proposer throws; a known one is removed and answered with the given code and reason |
| SignEngine.SignEngine.Approve | android/app/src/main/java/com/nduwallet/sign/src/main/kotlin/com/walletconnect/sign/engine/domain/SignEngine.kt:166-213 | an unknown proposer throws; a known one is removed even when the namespaces then fail; otherwise key pair, agreed session topic, subscription, the approval answer and, once the session is stored, the settlement request with a five-minute time-to-live, carrying as expiry the active-session deadline fixed when the engine loaded (load time plus a week) |
| SignEngine.SignEngine.UpdateSession | android/app/src/main/java/com/nduwallet/sign/src/main/kotlin/com/walletconnect/sign/engine/domain/SignEngine.kt:215-253 | in order: valid session, self controller, acknowledged, valid namespaces, each failure throwing before any effect; then the update is staged under its id and published for a day |
| SignEngine.SignEngine.SessionRequest | android/app/src/main/java/com/nduwallet/sign/src/main/kotlin/com/walletconnect/sign/engine/domain/SignEngine.kt:255-294 | valid session, valid request, authorised method, in that order, else the matching exception; then published for five minutes with the prompt flag |
| SignEngine.SignEngine.RespondSessionRequest | android/app/src/main/java/com/nduwallet/sign/src/main/kotlin/com/walletconnect/sign/engine/domain/SignEngine.kt:296-308 | on a valid session the application's response is published unchanged; otherwise an exception |
| SignEngine.SignEngine.Ping | android/app/src/main/java/com/nduwallet/sign/src/main/kotlin/com/walletconnect/sign/engine/domain/SignEngine.kt:310-344 | publishes the ping that the ping target names, for thirty seconds, or throws when there is none |
| SignEngine.SignEngine.Emit | android/app/src/main/java/com/nduwallet/sign/src/main/kotlin/com/walletconnect/sign/engine/domain/SignEngine.kt:346-376 | valid session, self controller, valid event, authorised event, else the matching exception; then published with the prompt flag |
| SignEngine.SignEngine.Extend | android/app/src/main/java/com/nduwallet/sign/src/main/kotlin/com/walletconnect/sign/engine/domain/SignEngine.kt:378-402 | valid, self-controlled, acknowledged session; the expiry stored and published is the old expiry plus a week, so the session is still valid a week from now |
| SignEngine.SignEngine.Disconnect | android/app/src/main/java/com/nduwallet/sign/src/main/kotlin/com/walletconnect/sign/engine/domain/SignEngine.kt:404-418 | a valid session is deleted and unsubscribed and the user-disconnected deletion published; its keys stay; otherwise an exception |
| SignEngine.SignEngine.OnRequest | android/app/src/main/java/com/nduwallet/sign/src/main/kotlin/com/walletconnect/sign/engine/domain/SignEngine.kt:445-461 | each inbound request has exactly the effect of the handler for its parameters (both pings share one); an approval arriving as a request changes nothing |
| SignEngine.SignEngine.OnSessionPropose | android/app/src/main/java/com/nduwallet/sign/src/main/kotlin/com/walletconnect/sign/engine/domain/SignEngine.kt:469-478 | invalid namespaces are answered with the validation error; valid ones are kept under the proposer's key and reported |
| SignEngine.SignEngine.OnSessionSettle | android/app/src/main/java/com/nduwallet/sign/src/main/kotlin/com/walletconnect/sign/engine/domain/SignEngine.kt:480-518 | found through the agreement's self key: invalid namespaces answered with the error; else metadata, proposal removed, acknowledged session stored, success and approval event; a storage failure keeps the proposal, deletes the session and answers with a settlement failure |
| SignEngine.SignEngine.OnPairingDelete | android/app/src/main/java/com/nduwallet/sign/src/main/kotlin/com/walletconnect/sign/engine/domain/SignEngine.kt:520-532 | an invalid pairing is answered with no-matching-topic; a valid one loses keys, subscription and record and the deletion is reported |
| SignEngine.SignEngine.OnSessionDelete | android/app/src/main/java/com/nduwallet/sign/src/main/kotlin/com/walletconnect/sign/engine/domain/SignEngine.kt:534-546 | the same for a session |
| SignEngine.SignEngine.OnSessionRequest | android/app/src/main/java/com/nduwallet/sign/src/main/kotlin/com/walletconnect/sign/engine/domain/SignEngine.kt:548-570 | invalid request, invalid session, unauthorised method are each answered with their error; a request that passes is reported with the peer's metadata and left unanswered |
| SignEngine.SignEngine.OnSessionEvent | android/app/src/main/java/com/nduwallet/sign/src/main/kotlin/com/walletconnect/sign/engine/domain/SignEngine.kt:572-602 | invalid event, invalid session, peer not controller, unacknowledged session, unauthorised event each answered with their error; otherwise acknowledged and reported |
| SignEngine.SignEngine.OnSessionUpdate | android/app/src/main/java/com/nduwallet/sign/src/main/kotlin/com/walletconnect/sign/engine/domain/SignEngine.kt:604-638 | invalid session, peer not controller, invalid namespaces, stale timestamp each answered with their error; otherwise namespaces replaced, timestamp recorded, acknowledged and reported, or an error when storage fails |
| SignEngine.SignEngine.OnSessionExtend | android/app/src/main/java/com/nduwallet/sign/src/main/kotlin/com/walletconnect/sign/engine/domain/SignEngine.kt:640-662 | invalid session, peer not controller, refused expiry each answered with their error; otherwise the peer's expiry is stored, acknowledged and reported |
| SignEngine.SignEngine.OnPing | android/app/src/main/java/com/nduwallet/sign/src/main/kotlin/com/walletconnect/sign/engine/domain/SignEngine.kt:664-667 | every ping is answered with success for thirty seconds |
| SignEngine.SignEngine.OnResponse | android/app/src/main/java/com/nduwallet/sign/src/main/kotlin/com/walletconnect/sign/engine/domain/SignEngine.kt:669-680 | each peer response has exactly the effect of the handler for its request's parameters; responses to other requests change nothing; none of them publishes or touches the proposal table |
| SignEngine.SignEngine.OnSessionProposalResponse | android/app/src/main/java/com/nduwallet/sign/src/main/kotlin/com/walletconnect/sign/engine/domain/SignEngine.kt:682-705 | only on a valid pairing: an inactive pairing is activated whatever the answer; an approval stores the key agreement between the proposal's key and the responder's key under the topic derived from them and subscribes to it; a rejection deletes a pairing that was inactive and reports the rejection |
| SignEngine.ProposerHandshake | android/app/src/main/java/com/nduwallet/sign/src/main/kotlin/com/walletconnect/sign/engine/domain/SignEngine.kt:682-700 | propose on a valid pairing, then the approval, then the settlement on the agreed topic: the proposal is consumed and the acknowledged session, controlled by the responder, is stored under that topic |
| SignEngine.SignEngine.OnSessionSettleResponse | android/app/src/main/java/com/nduwallet/sign/src/main/kotlin/com/walletconnect/sign/engine/domain/SignEngine.kt:707-725 | only on a valid session: success acknowledges it and reports the session as read before; an error unsubscribes and deletes session and keys |
| SignEngine.SignEngine.OnSessionUpdateNamespacesResponse | android/app/src/main/java/com/nduwallet/sign/src/main/kotlin/com/walletconnect/sign/engine/domain/SignEngine.kt:727-763 | only on a valid session and a fresh timestamp: success applies the staged namespaces and reports the namespaces read before the update; errors are reported |
| SignEngine.SignEngine.OnSessionRequestResponse | android/app/src/main/java/com/nduwallet/sign/src/main/kotlin/com/walletconnect/sign/engine/domain/SignEngine.kt:765-772 | the peer's answer is reported with the request's chain and method |
| SignEngine.SignEngine.ResubscribeToPairings | android/app/src/main/java/com/nduwallet/sign/src/main/kotlin/com/walletconnect/sign/engine/domain/SignEngine.kt:789-804 | expired pairings lose subscription, keys and record; valid ones are subscribed; afterwards every stored pairing is valid and subscribed |
| SignEngine.SignEngine.ResubscribeToSessions | android/app/src/main/java/com/nduwallet/sign/src/main/kotlin/com/walletconnect/sign/engine/domain/SignEngine.kt:806-820 | the same for sessions |
| SignEngine.SignEngine.DropPairings | android/app/src/main/java/com/nduwallet/sign/src/main/kotlin/com/walletconnect/sign/engine/domain/SignEngine.kt:793-799 | every given topic loses its pairing record, its keys and its subscription; nothing else changes |
| SignEngine.SignEngine.DropSessions | android/app/src/main/java/com/nduwallet/sign/src/main/kotlin/com/walletconnect/sign/engine/domain/SignEngine.kt:810-816 | every given topic loses its session record, its keys and its subscription; nothing else changes |
| SignEngine.SignEngine.SubscribeAll | android/app/src/main/java/com/nduwallet/sign/src/main/kotlin/com/walletconnect/sign/engine/domain/SignEngine.kt:801-803 | every given topic is added to the subscriptions; nothing else changes |
| SignEngine.SignEngine.OnConnectionAvailability | android/app/src/main/java/com/nduwallet/sign/src/main/kotlin/com/walletconnect/sign/engine/domain/SignEngine.kt:774-787 | the connection state is reported; when available, after the sweep every stored pairing and session is valid and every session subscribed |
| SignEngine.SignEngine.OnSequenceExpired | android/app/src/main/java/com/nduwallet/sign/src/main/kotlin/com/walletconnect/sign/engine/domain/SignEngine.kt:822-827 | an expired topic is unsubscribed and its keys removed |
| SignEngine.SignEngine.OnInternalError | android/app/src/main/java/com/nduwallet/sign/src/main/kotlin/com/walletconnect/sign/engine/domain/SignEngine.kt:463-467 | each internal error of the relayer is reported as an event |

## Behaviour kept from the code

Some behaviour of the code is surprising. The model keeps it:

- `Disconnect` deletes the session and unsubscribes, but leaves the session's
  keys in the key store.
- `Extend` sets the new expiry to the session's old expiry plus a week, not to
  the current time plus a week.
- `ProposeSequence` without a pairing topic first stores and subscribes a new
  inactive pairing, with its symmetric key. Only then does it check the
  proposal's namespaces. When the check fails, the caller gets
  `InvalidNamespace`, but the pairing, its key and its subscription stay in
  place.
- `Approve` removes the proposal before validating the namespaces. A proposal
  approved with invalid namespaces is therefore gone and cannot be approved
  again.
- `OnSessionSettleResponse` reports the session as it was read before it was
  acknowledged. `OnSessionUpdateNamespacesResponse` reports the namespaces as
  they were before the update was applied.
- `OnSessionEvent` answers an event on an unacknowledged session with
  no-matching-topic.
- After the reconnect sweep, a pairing whose topic is also the topic of an
  expired session has been unsubscribed by the session sweep.
  `OnConnectionAvailability` states this case.

## Left out

- Coroutines, flows and timeouts are left out. Each handler runs to
  completion, one call at a time. The two sweeps, which the source runs
  concurrently, run pairings first and then sessions.
- The waits for a peer's answer (`collectResponse`, with five-minute and
  thirty-second timeouts) are left out. The callbacks these waits fire are
  not modelled.
- `SignEngine.SignEngine.Ping`: its success callback, fired only when the
  peer answers in time, is not modelled.
- `handleInitializationErrors` is not modelled. It only forwards the relay
  client's connection errors to the application.
- The connectivity check is not modelled inside the engine. Each engine
  command takes the relay's verdict as `Env.relayOk`. The check itself is
  modelled in `RelayerInteractor`.
- The ciphers, the key-pair and symmetric-key generation, the key agreement,
  the JSON serializer and the URI parser are not part of this model. Their
  results are parameters or function values.
- The sequence storage is not part of this model. The namespace-update
  freshness rule assumes it accepts only timestamps strictly newer than the
  last one applied.
- `SignEngine.SignEngine.OnSessionUpdateNamespacesResponse`: when no staged
  update exists for the response's id, the model reports the failure event.
  What the storage does in that case is not part of this model.
- The Validator is not part of this model. Each check is a function from its
  inputs to an optional error.
- `SignEngine.SignEngine.OnSessionSettle`: a session topic with no key
  agreement is ignored. The source throws from inside the coroutine.
- `SignEngine.SignEngine.OnSessionSettle`: the proposal table holds only
  session proposals (`Valid`), so the branch that answers a proposal of
  another kind cannot occur.
- `SignEngine.SignEngine.OnSessionSettle`: a storage failure is placed after
  the pairing-metadata update.
- `SignEngine.SignEngine.OnSessionProposalResponse`: a result that is not an
  approval ends the handler after the activation. The source throws a failed
  cast there.
- `SignEngine.SignEngine.OnSessionProposalResponse`: the key agreement's
  implementation is not part of this model. Deriving the session topic is
  assumed to store the agreement (this side's key, then the peer's) under
  that topic, as it does in `Approve`; `OnSessionSettle` reads it back.
- `SignEngine.SignEngine.Approve`: a proposal without relays fails with
  `NoRelayInProposal` after the keys and the subscription are in place. The
  mapper that picks the relay is not part of this model.
- The text of the user-disconnected reason is not part of this model. Its
  code, 6000, is kept.
- The mapper that builds the proposal parameters is not part of this model.
  A proposal with no relays at all gets the default `irn` relay.
- Lists returned to the application are unordered maps keyed by topic or id.
- The engine-facing data objects (`EngineDO`) are replaced by the
  corresponding records.
- Logging is left out.
- `RelayerInteractor.RelayerInteractor.SetIsNetworkAvailable`: the network
  state is a flag the caller sets. Its platform source is not part of this
  model.
- `isConnectionAvailable` is modelled as the conjunction of the two flags,
  read when a call needs it. Its `stateIn` timing is not modelled.
- `EngineSpec.ExtractTimestamp`: the `extractTimestamp` extension is not part
  of this model. The model assumes a request id is a millisecond clock reading
  followed by three digits, and takes the id divided by 1000, truncated toward
  zero.
- `SignEngine.SignEngine.OnSessionUpdateNamespacesResponse`: the storage's
  `isUpdatedNamespaceResponseValid` is not part of this model. It is assumed
  to apply the same strictly-newer rule as `isUpdatedNamespaceValid`.
- The `Time` and `Tags` objects are not part of this model. The durations and
  the numeric tag ids in `Protocol` are the WalletConnect v2 values, assumed.
- The key store's `removeKeys` is not part of this model. It is assumed to
  delete the entry under exactly the given tag.
- `PairingVO.ToAbsoluteString`: the `toAbsoluteString` extension is not part
  of this model. The layout `wc:<topic>@<version>?relay-protocol=...&symKey=...`
  is assumed; the contract states only the `wc:<topic>` prefix.
- `TtlAdapter.FromJson`: a number is its exact value. Moshi's conversion
  through a double for long literals is not modelled.
- `TtlAdapter.RoundTrip`: `TtlVO`'s seconds are an unbounded integer in the
  model, so the lemma requires them to be a Long, as Kotlin's type does.
- `KeyChain.BytesToHex`: the `bytesToHex` utility is not part of this model.
  The model assumes it writes two lowercase hex digits per byte.
- `KeyChain.HexToBytes`: the `hexToBytes` utility is not part of this model.
  The model assumes it accepts digits of either case and is applied only to
  well-formed hex of even length. Its behaviour on other text is not modelled.
- `KeyChain.KeyChain.SetSymmetricKey`: the source stores any string. The model
  stores only well-formed hex, so `getKeys` on stored text that is not hex
  cannot be expressed.
- `RelayerInteractor.RelayerInteractor.OnSubscriptionRequest`: only a
  decryption failure ends the collection. The serializer and the history are
  total functions here, so no other exception arises.
