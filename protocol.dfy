/**
  The value types the sign engine and the relayer exchange: topics and keys,
  namespaces, the closed family of JSON-RPC parameter types, requests,
  responses and relay publish metadata.
 */
module Protocol {
  import opened Wrappers

  /** `TopicVO.value`: the hex identifier that relay traffic and storage lookups are keyed by. */
  type Topic = string

  /** `PublicKey.keyAsHex`. */
  type KeyHex = string

  datatype MetaData = MetaData(name: string, description: string, url: string, icons: seq<string>)

  datatype RelayProtocolOptions = RelayProtocolOptions(protocol: string, data: Option<string>)

  /** `RelayProtocolOptionsVO()` with its default arguments: the "irn" protocol, no data. */
  const DefaultRelay: RelayProtocolOptions := RelayProtocolOptions("irn", None)

  /** What a proposer requires on one chain family. */
  datatype ProposalNamespace = ProposalNamespace(chains: seq<string>, methods: seq<string>, events: seq<string>)

  /** What a responder grants on one chain family. */
  datatype SessionNamespace = SessionNamespace(accounts: seq<string>, methods: seq<string>, events: seq<string>)

  type ProposalNamespaces = map<string, ProposalNamespace>
  type SessionNamespaces = map<string, SessionNamespace>

  datatype SessionProposer = SessionProposer(publicKey: KeyHex, metadata: MetaData)
  datatype SessionParticipant = SessionParticipant(publicKey: KeyHex, metadata: MetaData)
  datatype SessionRequestPayload = SessionRequestPayload(rpcMethod: string, params: string)
  datatype SessionEventPayload = SessionEventPayload(name: string, data: string)

  /**
    The parameter objects of the pairing and session JSON-RPC methods
    (`PairingParamsVO` and `SessionParamsVO`), as one closed sum type so that
    every dispatch on them is an exhaustive match.
   */
  datatype ClientParams =
    | SessionProposeParams(relays: seq<RelayProtocolOptions>, proposer: SessionProposer, namespaces: ProposalNamespaces)
    | PairingDeleteParams(code: int, message: string)
    | PairingPingParams
    | SessionSettleParams(relay: RelayProtocolOptions, controller: SessionParticipant,
                          settleNamespaces: SessionNamespaces, expiry: int)
    | SessionRequestParams(request: SessionRequestPayload, chainId: string)
    | SessionDeleteParams(code: int, message: string)
    | EventParams(event: SessionEventPayload, chainId: string)
    | UpdateNamespacesParams(updateNamespaces: SessionNamespaces)
    | ExtendParams(newExpiry: int)
    | SessionPingParams
    | ApprovalParams(approvalRelay: RelayProtocolOptions, responderPublicKey: KeyHex)

  const WC_SESSION_PROPOSE := "wc_sessionPropose"
  const WC_PAIRING_DELETE := "wc_pairingDelete"
  const WC_PAIRING_PING := "wc_pairingPing"
  const WC_SESSION_SETTLE := "wc_sessionSettle"
  const WC_SESSION_REQUEST := "wc_sessionRequest"
  const WC_SESSION_DELETE := "wc_sessionDelete"
  const WC_SESSION_EVENT := "wc_sessionEvent"
  const WC_SESSION_UPDATE := "wc_sessionUpdate"
  const WC_SESSION_EXTEND := "wc_sessionExtend"
  const WC_SESSION_PING := "wc_sessionPing"

  /** Parameters that travel in a request (every kind but the approval result). */
  predicate IsRequestParams(p: ClientParams) {
    !p.ApprovalParams?
  }

  /** The JSON-RPC method name of the request that carries `p`. */
  function MethodOf(p: ClientParams): string
    requires IsRequestParams(p)
  {
    match p
    case SessionProposeParams(_, _, _) => WC_SESSION_PROPOSE
    case PairingDeleteParams(_, _) => WC_PAIRING_DELETE
    case PairingPingParams => WC_PAIRING_PING
    case SessionSettleParams(_, _, _, _) => WC_SESSION_SETTLE
    case SessionRequestParams(_, _) => WC_SESSION_REQUEST
    case SessionDeleteParams(_, _) => WC_SESSION_DELETE
    case EventParams(_, _) => WC_SESSION_EVENT
    case UpdateNamespacesParams(_) => WC_SESSION_UPDATE
    case ExtendParams(_) => WC_SESSION_EXTEND
    case SessionPingParams => WC_SESSION_PING
  }

  /** An outbound JSON-RPC request (`JsonRpcClientSync`): id, method and params. */
  datatype JsonRpcRequest = JsonRpcRequest(id: int, rpcMethod: string, params: ClientParams)

  /** The request object `PairingRpcVO.X(id, params)` / `SessionRpcVO.X(id, params)` builds. */
  function Rpc(id: int, params: ClientParams): (r: JsonRpcRequest)
    requires IsRequestParams(params)
    ensures r.id == id && r.params == params && r.rpcMethod == MethodOf(params)
  {
    JsonRpcRequest(id, MethodOf(params), params)
  }

  /** A request as received or as remembered: `WCRequestVO`. */
  datatype WCRequest = WCRequest(topic: Topic, id: int, rpcMethod: string, params: ClientParams)

  /** What a JSON-RPC result carries: `true`, a parameter object or an application payload. */
  datatype ResultValue = BoolResult(b: bool) | ParamsResult(p: ClientParams) | TextResult(s: string)

  datatype ErrorInfo = ErrorInfo(code: int, message: string)

  /** `JsonRpcResponseVO`: section 5 of the JSON-RPC 2.0 specification, a result or an error. */
  datatype JsonRpcResponse =
    | JsonRpcResult(id: int, result: ResultValue)
    | JsonRpcError(id: int, error: ErrorInfo)

  /** `WCResponseVO`: a peer response correlated to the request it answers. */
  datatype WCResponse = WCResponse(topic: Topic, rpcMethod: string, response: JsonRpcResponse, params: ClientParams)

  /** An error to report to the peer (`PeerError`): its code and message. */
  datatype PeerError = PeerError(code: int, message: string)

  /** `TtlVO`. */
  datatype Ttl = Ttl(seconds: int)

  /** The relay tags (`Tags`). */
  datatype Tag =
    | PAIRING_DELETE | PAIRING_DELETE_RESPONSE | PAIRING_PING | PAIRING_PING_RESPONSE
    | SESSION_PROPOSE | SESSION_PROPOSE_RESPONSE | SESSION_SETTLE | SESSION_SETTLE_RESPONSE
    | SESSION_UPDATE | SESSION_UPDATE_RESPONSE | SESSION_EXTEND | SESSION_EXTEND_RESPONSE
    | SESSION_REQUEST | SESSION_REQUEST_RESPONSE | SESSION_EVENT | SESSION_EVENT_RESPONSE
    | SESSION_DELETE | SESSION_DELETE_RESPONSE | SESSION_PING | SESSION_PING_RESPONSE

  /** `Tags.id`, the numbers of the WalletConnect v2 relay tag registry. */
  function TagId(t: Tag): int {
    match t
    case PAIRING_DELETE => 1000
    case PAIRING_DELETE_RESPONSE => 1001
    case PAIRING_PING => 1002
    case PAIRING_PING_RESPONSE => 1003
    case SESSION_PROPOSE => 1100
    case SESSION_PROPOSE_RESPONSE => 1101
    case SESSION_SETTLE => 1102
    case SESSION_SETTLE_RESPONSE => 1103
    case SESSION_UPDATE => 1104
    case SESSION_UPDATE_RESPONSE => 1105
    case SESSION_EXTEND => 1106
    case SESSION_EXTEND_RESPONSE => 1107
    case SESSION_REQUEST => 1108
    case SESSION_REQUEST_RESPONSE => 1109
    case SESSION_EVENT => 1110
    case SESSION_EVENT_RESPONSE => 1111
    case SESSION_DELETE => 1112
    case SESSION_DELETE_RESPONSE => 1113
    case SESSION_PING => 1114
    case SESSION_PING_RESPONSE => 1115
  }

  /** `IridiumParamsVO`: relay publish metadata; `prompt` defaults to false. */
  datatype IridiumParams = IridiumParams(tag: Tag, ttl: Ttl, prompt: bool)

  // `Time` constants, in seconds.
  const THIRTY_SECONDS: int := 30
  const FIVE_MINUTES_IN_SECONDS: int := 300
  const DAY_IN_SECONDS: int := 86400
  const WEEK_IN_SECONDS: int := 604800
  const MONTH_IN_SECONDS: int := 2592000
}
