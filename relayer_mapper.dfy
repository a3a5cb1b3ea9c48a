/**
  `RelayerMapper`: field-preserving conversions between the engine's JSON-RPC
  response objects, their relay-level (wire) counterparts, history entries,
  pending requests and relay publish parameters.
 */
module RelayerMapper {
  import opened Wrappers
  import opened Protocol

  /** `RelayerDO.JsonRpcResponse.Error`. */
  datatype WireError = WireError(code: int, message: string)

  /** `RelayerDO.JsonRpcResponse`: the response as it is serialised for the relay. */
  datatype WireResponse =
    | WireResult(id: int, result: ResultValue)
    | WireJsonRpcError(id: int, error: WireError)

  /** `JsonRpcHistoryVO`: one remembered request, with the response once there is one. */
  datatype HistoryEntry = HistoryEntry(requestId: int, topic: string, rpcMethod: string, body: string, response: Option<string>)

  /** `SessionRpcVO.SessionRequest` as deserialised from a history body. */
  datatype SessionRequestRpc = SessionRequestRpc(id: int, request: SessionRequestPayload, chainId: string)

  /** `PendingRequestVO`. */
  datatype PendingRequest = PendingRequest(requestId: int, topic: string, rpcMethod: string, chainId: string, params: string)

  /** `Relay.Model.IridiumParams`: the relay-level publish parameters. */
  datatype RelayParams = RelayParams(tag: int, ttl: int, prompt: bool)

  /** `toRelayerDOJsonRpcResult`. */
  function ToWireResult(r: JsonRpcResponse): (w: WireResponse)
    requires r.JsonRpcResult?
    ensures w.WireResult? && w.id == r.id && w.result == r.result
  {
    WireResult(r.id, r.result)
  }

  /** `toRelayerDORpcError`. */
  function ToWireError(r: JsonRpcResponse): (w: WireResponse)
    requires r.JsonRpcError?
    ensures w.WireJsonRpcError? && w.id == r.id
    ensures w.error.code == r.error.code && w.error.message == r.error.message
  {
    WireJsonRpcError(r.id, WireError(r.error.code, r.error.message))
  }

  /** `toRelayerDOJsonRpcResponse`: keeps the id and the kind, a result stays a result. */
  function ToWireResponse(r: JsonRpcResponse): (w: WireResponse)
    ensures w.id == r.id
    ensures w.WireResult? <==> r.JsonRpcResult?
    ensures r.JsonRpcResult? ==> w.result == r.result
    ensures r.JsonRpcError? ==> w.error == WireError(r.error.code, r.error.message)
  {
    match r
    case JsonRpcResult(_, _) => ToWireResult(r)
    case JsonRpcError(_, _) => ToWireError(r)
  }

  /** `toJsonRpcErrorVO`: back from the wire error to the engine's error response. */
  function ToJsonRpcErrorVO(w: WireResponse): (r: JsonRpcResponse)
    requires w.WireJsonRpcError?
    ensures r.JsonRpcError? && r.id == w.id
    ensures r.error.code == w.error.code && r.error.message == w.error.message
  {
    JsonRpcError(w.id, ErrorInfo(w.error.code, w.error.message))
  }

  /** Mapping an error to the wire and back loses nothing. */
  lemma ErrorRoundTrip(e: JsonRpcResponse)
    requires e.JsonRpcError?
    ensures ToJsonRpcErrorVO(ToWireError(e)) == e
  {
  }

  /** Mapping a wire error to the engine and back loses nothing either. */
  lemma WireErrorRoundTrip(w: WireResponse)
    requires w.WireJsonRpcError?
    ensures ToWireResponse(ToJsonRpcErrorVO(w)) == w
  {
  }

  /** Different responses never map to the same wire response. */
  lemma ToWireResponseInjective(a: JsonRpcResponse, b: JsonRpcResponse)
    requires ToWireResponse(a) == ToWireResponse(b)
    ensures a == b
  {
  }

  /** `toWCResponse`: correlates a response to the remembered request it answers. */
  function ToWCResponse(entry: HistoryEntry, result: JsonRpcResponse, params: ClientParams): (r: WCResponse)
    ensures r.topic == entry.topic && r.rpcMethod == entry.rpcMethod
    ensures r.response == result && r.params == params
  {
    WCResponse(entry.topic, entry.rpcMethod, result, params)
  }

  /** `toPendingRequestVO`: id and topic from the history entry, the rest from the request body. */
  function ToPendingRequestVO(rpc: SessionRequestRpc, entry: HistoryEntry): (p: PendingRequest)
    ensures p.requestId == entry.requestId && p.topic == entry.topic
    ensures p.rpcMethod == rpc.request.rpcMethod && p.chainId == rpc.chainId && p.params == rpc.request.params
  {
    PendingRequest(entry.requestId, entry.topic, rpc.request.rpcMethod, rpc.chainId, rpc.request.params)
  }

  /** `toRelay`: the tag's number, the TTL's seconds and the prompt flag, unchanged. */
  function ToRelay(p: IridiumParams): (r: RelayParams)
    ensures r.tag == TagId(p.tag) && r.ttl == p.ttl.seconds && r.prompt == p.prompt
  {
    RelayParams(TagId(p.tag), p.ttl.seconds, p.prompt)
  }
}
