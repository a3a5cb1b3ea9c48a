/**
  `RelayerInteractor`: turns JSON-RPC traffic into encrypted relay traffic.
  It keeps the subscription table (topic to relay subscription id), the
  connectivity flags, and the JSON-RPC history (id to remembered request and
  its response) that admits every request at most once and correlates every
  response with the request it answers. What the relay was asked to publish
  and what was handed to the engine are kept as logs.
 */
module RelayerInteractor {
  import opened Wrappers
  import opened Protocol
  import opened RelayerMapper

  /** `RelayerDO.ClientJsonRpc`: the id and method of an inbound request. */
  datatype ClientJsonRpc = ClientJsonRpc(id: int, rpcMethod: string)

  /**
    `JsonRpcSerializer`, as the functions the interactor uses; a `None` is a
    failed (`tryDeserialize`) or unknown (`deserialize`) parse.
   */
  datatype Serializer = Serializer(
    serializeRequest: JsonRpcRequest -> string,
    serializeResponse: WireResponse -> string,
    tryClientJsonRpc: string -> Option<ClientJsonRpc>,
    tryResult: string -> Option<(int, ResultValue)>,
    tryError: string -> Option<(int, WireError)>,
    deserializeParams: (string, string) -> Option<ClientParams>,
    trySessionRequest: string -> Option<SessionRequestRpc>)

  /** `Codec`: envelope-0 encryption, and decryption that fails with a message. */
  datatype Codec = Codec(
    encrypt: (Topic, string) -> string,
    decrypt: (Topic, string) -> Result<string, string>)

  /** One `relay.publish` call: topic, encrypted message, relay parameters. */
  datatype Publication = Publication(topic: Topic, message: string, params: RelayParams)

  /** The relay's connection events (`Relay.Model.Event`). */
  datatype RelayEvent =
    | ConnectionOpened
    | MessageReceived
    | ConnectionClosing
    | ConnectionClosed
    | ConnectionFailed(message: Option<string>)

  datatype WcException =
    | MissingInternetConnection(message: string)
    | ProjectIdDoesNotExist(detail: Option<string>)
    | InvalidProjectId(detail: Option<string>)
    | Generic(detail: Option<string>)

  /** Which of a caller's callbacks fires: neither, `onSuccess` or `onFailure`. */
  datatype Callback = NoCallback | OnSuccess | OnFailure

  const NO_CONNECTION_MESSAGE := "No connection available"
  const UNKNOWN_OBJECT_MESSAGE := "RelayerInteractor: Received unknown object type"
  const UNKNOWN_REQUEST_PARAMS_MESSAGE := "RelayerInteractor: Unknown request params"
  const UNKNOWN_RESULT_PARAMS_MESSAGE := "RelayerInteractor: Unknown result params"
  const UNKNOWN_ERROR_PARAMS_MESSAGE := "RelayerInteractor: Unknown error params"

  // ---------------------------------------------------------------------------
  // The JSON-RPC history, as operations on its map

  /**
    `setRequest`: admits a request id that the history does not hold yet,
    remembering it without a response; an id already held is refused and the
    history is left as it was.
   */
  function SetRequest(h: map<int, HistoryEntry>, id: int, topic: Topic, rpcMethod: string, body: string)
    : (r: (bool, map<int, HistoryEntry>))
    ensures r.0 <==> id !in h
    ensures r.0 ==> r.1 == h[id := HistoryEntry(id, topic, rpcMethod, body, None)]
    ensures !r.0 ==> r.1 == h
  {
    if id in h then (false, h) else (true, h[id := HistoryEntry(id, topic, rpcMethod, body, None)])
  }

  /** Admission is at most once: the same id offered again is refused and changes nothing. */
  lemma AdmissionIsAtMostOnce(h: map<int, HistoryEntry>, id: int, topic: Topic, m: string, body: string,
                              topic2: Topic, m2: string, body2: string)
    requires SetRequest(h, id, topic, m, body).0
    ensures var h1 := SetRequest(h, id, topic, m, body).1;
            SetRequest(h1, id, topic2, m2, body2) == (false, h1)
  {
  }

  /**
    `updateRequestWithResponse`: the remembered request for `id`, with the
    response attached, or null (and no change) when no request has that id.
   */
  function UpdateWithResponse(h: map<int, HistoryEntry>, id: int, response: string)
    : (r: (Option<HistoryEntry>, map<int, HistoryEntry>))
    ensures id !in h ==> r == (None, h)
    ensures id in h ==> r.0 == Some(h[id]) && r.1 == h[id := h[id].(response := Some(response))]
  {
    if id in h then (Some(h[id]), h[id := h[id].(response := Some(response))]) else (None, h)
  }

  /** `deleteRequests`: forgets every request on `topic`, keeps every other one. */
  function DeleteRequests(h: map<int, HistoryEntry>, topic: Topic): (r: map<int, HistoryEntry>)
    ensures forall id :: id in r <==> id in h && h[id].topic != topic
    ensures forall id :: id in r ==> r[id] == h[id]
  {
    map id | id in h && h[id].topic != topic :: h[id]
  }

  /**
    `getPendingRequests`: the history entries on `topic` that have no
    response, are session requests and whose body parses as one, as pending
    requests.
   */
  function PendingRequests(s: Serializer, h: map<int, HistoryEntry>, topic: Topic): (r: map<int, PendingRequest>)
    ensures forall id :: id in r <==>
      && id in h && h[id].topic == topic && h[id].response.None?
      && h[id].rpcMethod == WC_SESSION_REQUEST
      && s.trySessionRequest(h[id].body).Some?
    ensures forall id :: id in r ==>
      r[id] == ToPendingRequestVO(s.trySessionRequest(h[id].body).value, h[id])
  {
    map id | id in h && h[id].topic == topic && h[id].response.None?
              && h[id].rpcMethod == WC_SESSION_REQUEST
              && s.trySessionRequest(h[id].body).Some?
      :: ToPendingRequestVO(s.trySessionRequest(h[id].body).value, h[id])
  }

  // ---------------------------------------------------------------------------
  // Pure parts

  /** Whether `pattern` occurs in `s`. */
  predicate Contains(s: string, pattern: string)
    decreases |s|
  {
    |pattern| <= |s| && (s[..|pattern|] == pattern || Contains(s[1..], pattern))
  }

  /**
    `toWalletConnectException`: a failure whose message mentions HTTP 401 is
    an unknown project id, one that mentions 403 an invalid project id, any
    other (or one without a message) a generic error.
   */
  function ToWalletConnectException(message: Option<string>): (e: WcException)
    ensures message.Some? && Contains(message.value, "401") ==> e == ProjectIdDoesNotExist(message)
    ensures message.Some? && !Contains(message.value, "401") && Contains(message.value, "403")
            ==> e == InvalidProjectId(message)
    ensures (message.None? || (!Contains(message.value, "401") && !Contains(message.value, "403")))
            ==> e == Generic(message)
  {
    if message.Some? && Contains(message.value, "401") then ProjectIdDoesNotExist(message)
    else if message.Some? && Contains(message.value, "403") then InvalidProjectId(message)
    else Generic(message)
  }

  /** The three kinds of inbound plaintext, and the rest. */
  datatype Inbound =
    | InboundRequest(rpc: ClientJsonRpc)
    | InboundResult(resultId: int, result: ResultValue)
    | InboundError(errorId: int, error: WireError)
    | Unclassified

  /**
    The classification of `manageSubscriptions`: a request if the message
    parses as one, else a result, else an error, else unclassified.
   */
  function Classify(s: Serializer, message: string): (c: Inbound)
    ensures s.tryClientJsonRpc(message).Some? ==> c == InboundRequest(s.tryClientJsonRpc(message).value)
    ensures s.tryClientJsonRpc(message).None? && s.tryResult(message).Some?
            ==> c == InboundResult(s.tryResult(message).value.0, s.tryResult(message).value.1)
    ensures s.tryClientJsonRpc(message).None? && s.tryResult(message).None? && s.tryError(message).Some?
            ==> c == InboundError(s.tryError(message).value.0, s.tryError(message).value.1)
    ensures c == Unclassified
            <==> s.tryClientJsonRpc(message).None? && s.tryResult(message).None? && s.tryError(message).None?
  {
    match s.tryClientJsonRpc(message)
    case Some(rpc) => InboundRequest(rpc)
    case None =>
      match s.tryResult(message)
      case Some(res) => InboundResult(res.0, res.1)
      case None =>
        match s.tryError(message)
        case Some(err) => InboundError(err.0, err.1)
        case None => Unclassified
  }

  class RelayerInteractor {
    const serializer: Serializer
    const codec: Codec

    var isWSSConnectionOpened: bool
    var isNetworkAvailable: bool
    /** `subscriptions`: topic to the subscription id the relay acknowledged. */
    var subscriptions: map<Topic, string>
    /** `jsonRpcHistory`. */
    var history: map<int, HistoryEntry>
    /** Every `relay.publish` call, in order. */
    var published: seq<Publication>
    /** `clientSyncJsonRpc`: inbound requests handed to the engine. */
    var clientSyncJsonRpc: seq<WCRequest>
    /** `peerResponse`: correlated responses handed to the engine. */
    var peerResponse: seq<WCResponse>
    /** `internalErrors`: messages of internal-error events. */
    var internalErrors: seq<string>
    /** Whether the inbound collection started at construction is still running. */
    var collecting: bool

    constructor (serializer: Serializer, codec: Codec, history: map<int, HistoryEntry>, networkAvailable: bool)
      ensures this.serializer == serializer && this.codec == codec
      ensures !isWSSConnectionOpened && isNetworkAvailable == networkAvailable && !IsConnectionAvailable()
      ensures subscriptions == map[] && this.history == history
      ensures published == [] && clientSyncJsonRpc == [] && peerResponse == [] && internalErrors == []
      ensures collecting
    {
      this.serializer := serializer;
      this.codec := codec;
      isWSSConnectionOpened := false;
      isNetworkAvailable := networkAvailable;
      subscriptions := map[];
      this.history := history;
      published := [];
      clientSyncJsonRpc := [];
      peerResponse := [];
      internalErrors := [];
      collecting := true;
    }

    /** `isConnectionAvailable`: the socket is open and the network is reachable. */
    predicate IsConnectionAvailable()
      reads this
    {
      isWSSConnectionOpened && isNetworkAvailable
    }

    /** `checkConnectionWorking`: throws exactly when no connection is available. */
    method CheckConnectionWorking() returns (r: Result<(), WcException>)
      ensures r.Success? <==> IsConnectionAvailable()
      ensures r.Failure? ==> r.error == MissingInternetConnection(NO_CONNECTION_MESSAGE)
    {
      if !IsConnectionAvailable() {
        return Failure(MissingInternetConnection(NO_CONNECTION_MESSAGE));
      }
      r := Success(());
    }

    /** The encrypted envelope of a serialised message on `topic`. */
    function Envelope(topic: Topic, json: string, params: IridiumParams): Publication {
      Publication(topic, codec.encrypt(topic, json), ToRelay(params))
    }

    /**
      `publishJsonRpcRequests`: without a connection, throws before anything
      else. A request id the history already holds publishes nothing and fires
      no callback. Otherwise the request is remembered, encrypted and
      published, and exactly one callback fires, according to the relay's result.
     */
    method PublishJsonRpcRequests(topic: Topic, params: IridiumParams, payload: JsonRpcRequest, relayOk: bool)
      returns (r: Result<Callback, WcException>)
      modifies this
      ensures collecting == old(collecting)
      ensures !old(IsConnectionAvailable()) ==>
        r == Failure(MissingInternetConnection(NO_CONNECTION_MESSAGE)) && unchanged(this)
      ensures old(IsConnectionAvailable()) && payload.id in old(history) ==>
        r == Success(NoCallback) && unchanged(this)
      ensures old(IsConnectionAvailable()) && payload.id !in old(history) ==>
        var json := serializer.serializeRequest(payload);
        && history == old(history)[payload.id := HistoryEntry(payload.id, topic, payload.rpcMethod, json, None)]
        && published == old(published) + [Envelope(topic, json, params)]
        && r == Success(if relayOk then OnSuccess else OnFailure)
      ensures subscriptions == old(subscriptions) && isWSSConnectionOpened == old(isWSSConnectionOpened)
      ensures isNetworkAvailable == old(isNetworkAvailable) && internalErrors == old(internalErrors)
      ensures clientSyncJsonRpc == old(clientSyncJsonRpc) && peerResponse == old(peerResponse)
    {
      var check := CheckConnectionWorking();
      if check.Failure? {
        return Failure(check.error);
      }
      var json := serializer.serializeRequest(payload);
      var admission := SetRequest(history, payload.id, topic, payload.rpcMethod, json);
      if !admission.0 {
        return Success(NoCallback);
      }
      history := admission.1;
      published := published + [Envelope(topic, json, params)];
      r := Success(if relayOk then OnSuccess else OnFailure);
    }

    /**
      The effect of publishing `response` on `topic` once connected: one
      publication, and the response written into the history only when the
      relay acknowledged it.
     */
    twostate predicate ResponsePublished(topic: Topic, response: JsonRpcResponse, params: IridiumParams, relayOk: bool)
      reads this
    {
      var json := serializer.serializeResponse(ToWireResponse(response));
      && published == old(published) + [Envelope(topic, json, params)]
      && history == (if relayOk then UpdateWithResponse(old(history), response.id, json).1 else old(history))
      && subscriptions == old(subscriptions) && isWSSConnectionOpened == old(isWSSConnectionOpened)
      && isNetworkAvailable == old(isNetworkAvailable)
      && clientSyncJsonRpc == old(clientSyncJsonRpc) && peerResponse == old(peerResponse)
    }

    /**
      `publishJsonRpcResponse`: without a connection, throws before anything
      else; otherwise publishes the encrypted response, and only after the
      relay acknowledged it writes it into the history. A failed publish
      leaves the history as it was.
     */
    method PublishJsonRpcResponse(topic: Topic, response: JsonRpcResponse, params: IridiumParams, relayOk: bool)
      returns (r: Result<Callback, WcException>)
      modifies this
      ensures collecting == old(collecting)
      ensures !old(IsConnectionAvailable()) ==>
        r == Failure(MissingInternetConnection(NO_CONNECTION_MESSAGE)) && unchanged(this)
      ensures old(IsConnectionAvailable()) ==>
        ResponsePublished(topic, response, params, relayOk) && internalErrors == old(internalErrors)
        && r == Success(if relayOk then OnSuccess else OnFailure)
      ensures !relayOk ==> history == old(history)
    {
      var check := CheckConnectionWorking();
      if check.Failure? {
        return Failure(check.error);
      }
      var json := serializer.serializeResponse(ToWireResponse(response));
      published := published + [Envelope(topic, json, params)];
      if relayOk {
        history := UpdateWithResponse(history, response.id, json).1;
        r := Success(OnSuccess);
      } else {
        r := Success(OnFailure);
      }
    }

    /**
      `respondWithParams`: publishes, on the request's topic, a result with the
      request's id carrying `clientParams`. A missing connection propagates.
     */
    method RespondWithParams(request: WCRequest, clientParams: ClientParams, params: IridiumParams, relayOk: bool)
      returns (r: Result<Callback, WcException>)
      modifies this
      ensures collecting == old(collecting)
      ensures !old(IsConnectionAvailable()) ==>
        r == Failure(MissingInternetConnection(NO_CONNECTION_MESSAGE)) && unchanged(this)
      ensures old(IsConnectionAvailable()) ==>
        ResponsePublished(request.topic, JsonRpcResult(request.id, ParamsResult(clientParams)), params, relayOk)
        && internalErrors == old(internalErrors) && r.Success?
    {
      r := PublishJsonRpcResponse(request.topic, JsonRpcResult(request.id, ParamsResult(clientParams)), params, relayOk);
    }

    /**
      `respondWithSuccess`: publishes, on the request's topic, the result
      `true` with the request's id. A missing connection is caught and
      reported as an internal error.
     */
    method RespondWithSuccess(request: WCRequest, params: IridiumParams, relayOk: bool)
      modifies this
      ensures collecting == old(collecting)
      ensures !old(IsConnectionAvailable()) ==>
        internalErrors == old(internalErrors) + [NO_CONNECTION_MESSAGE]
        && published == old(published) && history == old(history) && subscriptions == old(subscriptions)
        && clientSyncJsonRpc == old(clientSyncJsonRpc) && peerResponse == old(peerResponse)
        && isWSSConnectionOpened == old(isWSSConnectionOpened) && isNetworkAvailable == old(isNetworkAvailable)
      ensures old(IsConnectionAvailable()) ==>
        ResponsePublished(request.topic, JsonRpcResult(request.id, BoolResult(true)), params, relayOk)
        && internalErrors == old(internalErrors)
    {
      var r := PublishJsonRpcResponse(request.topic, JsonRpcResult(request.id, BoolResult(true)), params, relayOk);
      if r.Failure? {
        HandleError(r.error.message);
      }
    }

    /**
      `respondWithError`: publishes, on the request's topic, an error with the
      request's id carrying the peer error's code and message; the caller's
      failure callback fires when the relay refuses. A missing connection is
      caught and reported as an internal error.
     */
    method RespondWithError(request: WCRequest, error: PeerError, params: IridiumParams, relayOk: bool)
      returns (callback: Callback)
      modifies this
      ensures collecting == old(collecting)
      ensures !old(IsConnectionAvailable()) ==>
        internalErrors == old(internalErrors) + [NO_CONNECTION_MESSAGE] && callback == NoCallback
        && published == old(published) && history == old(history) && subscriptions == old(subscriptions)
        && clientSyncJsonRpc == old(clientSyncJsonRpc) && peerResponse == old(peerResponse)
        && isWSSConnectionOpened == old(isWSSConnectionOpened) && isNetworkAvailable == old(isNetworkAvailable)
      ensures old(IsConnectionAvailable()) ==>
        ResponsePublished(request.topic, JsonRpcError(request.id, ErrorInfo(error.code, error.message)), params, relayOk)
        && internalErrors == old(internalErrors)
        && callback == (if relayOk then OnSuccess else OnFailure)
    {
      var r := PublishJsonRpcResponse(request.topic, JsonRpcError(request.id, ErrorInfo(error.code, error.message)), params, relayOk);
      if r.Failure? {
        HandleError(r.error.message);
        callback := NoCallback;
      } else {
        callback := r.value;
      }
    }

    /**
      `subscribe`: without a connection, throws; otherwise the topic enters
      the table, with the id the relay acknowledged, only when the relay
      acknowledged the subscription (`ack` is that id, `None` a failure).
     */
    method Subscribe(topic: Topic, ack: Option<string>) returns (r: Result<(), WcException>)
      modifies this
      ensures collecting == old(collecting)
      ensures !old(IsConnectionAvailable()) ==>
        r == Failure(MissingInternetConnection(NO_CONNECTION_MESSAGE)) && unchanged(this)
      ensures old(IsConnectionAvailable()) ==> r.Success?
      ensures old(IsConnectionAvailable()) ==>
        subscriptions == (if ack.Some? then old(subscriptions)[topic := ack.value] else old(subscriptions))
      ensures history == old(history) && published == old(published) && internalErrors == old(internalErrors)
      ensures clientSyncJsonRpc == old(clientSyncJsonRpc) && peerResponse == old(peerResponse)
      ensures isWSSConnectionOpened == old(isWSSConnectionOpened) && isNetworkAvailable == old(isNetworkAvailable)
    {
      var check := CheckConnectionWorking();
      if check.Failure? {
        return Failure(check.error);
      }
      if ack.Some? {
        subscriptions := subscriptions[topic := ack.value];
      }
      r := Success(());
    }

    /**
      `unsubscribe`: without a connection, throws; a topic not in the table is
      a no-op; otherwise, when the relay acknowledges, the topic's history is
      deleted and the topic leaves the table.
     */
    method Unsubscribe(topic: Topic, relayOk: bool) returns (r: Result<(), WcException>)
      modifies this
      ensures collecting == old(collecting)
      ensures !old(IsConnectionAvailable()) ==>
        r == Failure(MissingInternetConnection(NO_CONNECTION_MESSAGE)) && unchanged(this)
      ensures old(IsConnectionAvailable()) ==> r.Success?
      ensures old(IsConnectionAvailable()) && topic in old(subscriptions) && relayOk ==>
        subscriptions == old(subscriptions) - {topic} && history == DeleteRequests(old(history), topic)
      ensures !(topic in old(subscriptions) && relayOk) ==>
        subscriptions == old(subscriptions) && history == old(history)
      ensures published == old(published) && internalErrors == old(internalErrors)
      ensures clientSyncJsonRpc == old(clientSyncJsonRpc) && peerResponse == old(peerResponse)
      ensures isWSSConnectionOpened == old(isWSSConnectionOpened) && isNetworkAvailable == old(isNetworkAvailable)
    {
      var check := CheckConnectionWorking();
      if check.Failure? {
        return Failure(check.error);
      }
      if topic in subscriptions && relayOk {
        history := DeleteRequests(history, topic);
        subscriptions := subscriptions - {topic};
      }
      r := Success(());
    }

    /** `handleError`: an internal-error event with the message. */
    method HandleError(message: string)
      modifies this
      ensures ErrorReported(message)
    {
      internalErrors := internalErrors + [message];
    }

    /** Nothing an inbound message touches apart from the logs and the history has changed. */
    twostate predicate OutboundUnchanged()
      reads this
    {
      && published == old(published) && subscriptions == old(subscriptions)
      && isWSSConnectionOpened == old(isWSSConnectionOpened) && isNetworkAvailable == old(isNetworkAvailable)
      && collecting == old(collecting)
    }

    /** The effect of `handleError(message)`: one internal error, nothing else. */
    twostate predicate ErrorReported(message: string)
      reads this
    {
      && OutboundUnchanged()
      && internalErrors == old(internalErrors) + [message]
      && history == old(history) && clientSyncJsonRpc == old(clientSyncJsonRpc) && peerResponse == old(peerResponse)
    }

    /**
      The effect of `handleRequest`: a request the history admits is
      remembered and handed to the engine with its typed params (unknown
      params are an internal error); a request the history refuses, a
      redelivered duplicate, changes nothing.
     */
    twostate predicate RequestHandled(rpc: ClientJsonRpc, topic: Topic, message: string)
      reads this
    {
      && OutboundUnchanged() && peerResponse == old(peerResponse)
      && (rpc.id in old(history) ==>
            history == old(history) && clientSyncJsonRpc == old(clientSyncJsonRpc)
            && internalErrors == old(internalErrors))
      && (rpc.id !in old(history) ==>
            && history == old(history)[rpc.id := HistoryEntry(rpc.id, topic, rpc.rpcMethod, message, None)]
            && match serializer.deserializeParams(rpc.rpcMethod, message)
               case Some(params) =>
                 clientSyncJsonRpc == old(clientSyncJsonRpc) + [WCRequest(topic, rpc.id, rpc.rpcMethod, params)]
                 && internalErrors == old(internalErrors)
               case None =>
                 clientSyncJsonRpc == old(clientSyncJsonRpc)
                 && internalErrors == old(internalErrors) + [UNKNOWN_REQUEST_PARAMS_MESSAGE])
    }

    /**
      The effect of a response (`wire` on the wire, `vo` for the engine) to
      request `id`: when the history holds the request, the response is
      written into it and handed to the engine, correlated with the request's
      topic, method and params (unparseable params are the internal error
      `unknown`); an unknown id changes nothing.
     */
    twostate predicate ResponseCorrelated(id: int, wire: WireResponse, vo: JsonRpcResponse, unknown: string)
      reads this
    {
      && OutboundUnchanged() && clientSyncJsonRpc == old(clientSyncJsonRpc)
      && (id !in old(history) ==>
            history == old(history) && peerResponse == old(peerResponse) && internalErrors == old(internalErrors))
      && (id in old(history) ==>
            var entry := old(history)[id];
            && history == old(history)[id := entry.(response := Some(serializer.serializeResponse(wire)))]
            && match serializer.deserializeParams(entry.rpcMethod, entry.body)
               case Some(params) =>
                 peerResponse == old(peerResponse) + [ToWCResponse(entry, vo, params)]
                 && internalErrors == old(internalErrors)
               case None =>
                 peerResponse == old(peerResponse) && internalErrors == old(internalErrors) + [unknown])
    }

    /**
      The effect of `manageSubscriptions` on one plaintext: a request, a
      result and an error each have their handler's effect; a message that is
      none of them is an internal error.
     */
    twostate predicate MessageManaged(message: string, topic: Topic)
      reads this
    {
      match Classify(serializer, message)
      case InboundRequest(rpc) => RequestHandled(rpc, topic, message)
      case InboundResult(id, result) =>
        ResponseCorrelated(id, WireResult(id, result), JsonRpcResult(id, result), UNKNOWN_RESULT_PARAMS_MESSAGE)
      case InboundError(id, error) =>
        ResponseCorrelated(id, WireJsonRpcError(id, error), ToJsonRpcErrorVO(WireJsonRpcError(id, error)),
                           UNKNOWN_ERROR_PARAMS_MESSAGE)
      case Unclassified => ErrorReported(UNKNOWN_OBJECT_MESSAGE)
    }

    /**
      One message of the inbound collection: decrypt for its topic, then
      classify and handle the plaintext. A decryption failure escapes the
      collection: the coroutine's exception handler reports it as an
      internal error, and the collection is over, so every later message is
      ignored.
     */
    method OnSubscriptionRequest(topic: Topic, cipherText: string)
      modifies this
      ensures !old(collecting) ==> unchanged(this)
      ensures old(collecting) && codec.decrypt(topic, cipherText).Failure? ==>
        && !collecting
        && internalErrors == old(internalErrors) + [codec.decrypt(topic, cipherText).error]
        && history == old(history) && clientSyncJsonRpc == old(clientSyncJsonRpc) && peerResponse == old(peerResponse)
        && published == old(published) && subscriptions == old(subscriptions)
        && isWSSConnectionOpened == old(isWSSConnectionOpened) && isNetworkAvailable == old(isNetworkAvailable)
      ensures old(collecting) && codec.decrypt(topic, cipherText).Success? ==>
        MessageManaged(codec.decrypt(topic, cipherText).value, topic)
    {
      if !collecting {
        return;
      }
      var plain := codec.decrypt(topic, cipherText);
      if plain.Failure? {
        HandleError(plain.error);
        collecting := false;
      } else {
        ManageSubscriptions(plain.value, topic);
      }
    }

    /**
      `manageSubscriptions`: a request, a result and an error each go to their
      handler; a message that is none of them is an internal error.
     */
    method ManageSubscriptions(message: string, topic: Topic)
      modifies this
      ensures MessageManaged(message, topic)
    {
      match Classify(serializer, message)
      case InboundRequest(rpc) => HandleRequest(rpc, topic, message);
      case InboundResult(id, result) => HandleJsonRpcResult(id, result);
      case InboundError(id, error) => HandleJsonRpcError(id, error);
      case Unclassified => HandleError(UNKNOWN_OBJECT_MESSAGE);
    }

    /** `handleRequest`: see `RequestHandled`. */
    method HandleRequest(rpc: ClientJsonRpc, topic: Topic, message: string)
      modifies this
      ensures RequestHandled(rpc, topic, message)
      ensures rpc.id in old(history) ==> unchanged(this)
    {
      var admission := SetRequest(history, rpc.id, topic, rpc.rpcMethod, message);
      if admission.0 {
        history := admission.1;
        match serializer.deserializeParams(rpc.rpcMethod, message)
        case Some(params) =>
          clientSyncJsonRpc := clientSyncJsonRpc + [WCRequest(topic, rpc.id, rpc.rpcMethod, params)];
        case None =>
          HandleError(UNKNOWN_REQUEST_PARAMS_MESSAGE);
      }
    }

    /**
      `handleJsonRpcResult`: a result for an id the history holds is written
      into it and handed to the engine, correlated with the request's topic,
      method and params; a result for an unknown id changes nothing.
     */
    method HandleJsonRpcResult(id: int, result: ResultValue)
      modifies this
      ensures ResponseCorrelated(id, WireResult(id, result), JsonRpcResult(id, result), UNKNOWN_RESULT_PARAMS_MESSAGE)
      ensures id !in old(history) ==> unchanged(this)
    {
      var record := UpdateWithResponse(history, id, serializer.serializeResponse(WireResult(id, result)));
      history := record.1;
      if record.0.Some? {
        var entry := record.0.value;
        match serializer.deserializeParams(entry.rpcMethod, entry.body)
        case Some(params) =>
          peerResponse := peerResponse + [ToWCResponse(entry, JsonRpcResult(id, result), params)];
        case None =>
          HandleError(UNKNOWN_RESULT_PARAMS_MESSAGE);
      }
    }

    /**
      `handleJsonRpcError`: as for a result, with the wire error mapped back
      to the engine's error response.
     */
    method HandleJsonRpcError(id: int, error: WireError)
      modifies this
      ensures ResponseCorrelated(id, WireJsonRpcError(id, error), ToJsonRpcErrorVO(WireJsonRpcError(id, error)),
                                 UNKNOWN_ERROR_PARAMS_MESSAGE)
      ensures id !in old(history) ==> unchanged(this)
    {
      var wire := WireJsonRpcError(id, error);
      var record := UpdateWithResponse(history, id, serializer.serializeResponse(wire));
      history := record.1;
      if record.0.Some? {
        var entry := record.0.value;
        match serializer.deserializeParams(entry.rpcMethod, entry.body)
        case Some(params) =>
          peerResponse := peerResponse + [ToWCResponse(entry, ToJsonRpcErrorVO(wire), params)];
        case None =>
          HandleError(UNKNOWN_ERROR_PARAMS_MESSAGE);
      }
    }

    /**
      `setIsWSSConnectionOpened`: an opened socket sets the flag, a closed or
      failed one clears it, every other event leaves it alone.
     */
    method SetIsWSSConnectionOpened(event: RelayEvent)
      modifies this
      ensures collecting == old(collecting)
      ensures event.ConnectionOpened? ==> isWSSConnectionOpened
      ensures (event.ConnectionClosed? || event.ConnectionFailed?) ==> !isWSSConnectionOpened && !IsConnectionAvailable()
      ensures (event.MessageReceived? || event.ConnectionClosing?) ==> isWSSConnectionOpened == old(isWSSConnectionOpened)
      ensures isNetworkAvailable == old(isNetworkAvailable)
      ensures IsConnectionAvailable() <==> isWSSConnectionOpened && isNetworkAvailable
      ensures subscriptions == old(subscriptions) && history == old(history) && published == old(published)
      ensures clientSyncJsonRpc == old(clientSyncJsonRpc) && peerResponse == old(peerResponse)
      ensures internalErrors == old(internalErrors)
    {
      if event.ConnectionOpened? {
        if !isWSSConnectionOpened {
          isWSSConnectionOpened := true;
        }
      } else if event.ConnectionClosed? || event.ConnectionFailed? {
        if isWSSConnectionOpened {
          isWSSConnectionOpened := false;
        }
      }
    }

    /** The network-state collaborator reports reachability. */
    method SetIsNetworkAvailable(available: bool)
      modifies this
      ensures collecting == old(collecting)
      ensures isNetworkAvailable == available && isWSSConnectionOpened == old(isWSSConnectionOpened)
      ensures subscriptions == old(subscriptions) && history == old(history) && published == old(published)
      ensures clientSyncJsonRpc == old(clientSyncJsonRpc) && peerResponse == old(peerResponse)
      ensures internalErrors == old(internalErrors)
    {
      isNetworkAvailable := available;
    }

    /**
      `initializationErrorsFlow` for one relay event: the event updates the
      socket flag, and only a connection failure yields an error, mapped by
      `toWalletConnectException`.
     */
    method OnRelayEvent(event: RelayEvent) returns (error: Option<WcException>)
      modifies this
      ensures collecting == old(collecting)
      ensures error.Some? <==> event.ConnectionFailed?
      ensures event.ConnectionFailed? ==> error.value == ToWalletConnectException(event.message)
      ensures event.ConnectionOpened? ==> isWSSConnectionOpened
      ensures (event.ConnectionClosed? || event.ConnectionFailed?) ==> !isWSSConnectionOpened
      ensures (event.MessageReceived? || event.ConnectionClosing?) ==> isWSSConnectionOpened == old(isWSSConnectionOpened)
      ensures isNetworkAvailable == old(isNetworkAvailable)
      ensures subscriptions == old(subscriptions) && history == old(history) && published == old(published)
      ensures clientSyncJsonRpc == old(clientSyncJsonRpc) && peerResponse == old(peerResponse)
      ensures internalErrors == old(internalErrors)
    {
      SetIsWSSConnectionOpened(event);
      error := if event.ConnectionFailed? then Some(ToWalletConnectException(event.message)) else None;
    }
  }

  /**
    A response written into the history answers its request: that request
    leaves the pending requests of every topic, and no other request's
    standing changes.
   */
  lemma AnsweredIsNotPending(s: Serializer, h: map<int, HistoryEntry>, id: int, json: string, topic: Topic)
    ensures var h' := UpdateWithResponse(h, id, json).1;
            && id !in PendingRequests(s, h', topic)
            && forall k :: k != id ==> (k in PendingRequests(s, h', topic) <==> k in PendingRequests(s, h, topic))
  {
  }

  /** A session request the history admits, and whose body parses, is pending on its topic. */
  lemma AdmittedRequestIsPending(s: Serializer, h: map<int, HistoryEntry>, id: int, topic: Topic, body: string)
    requires id !in h && s.trySessionRequest(body).Some?
    ensures var h' := SetRequest(h, id, topic, WC_SESSION_REQUEST, body).1;
            id in PendingRequests(s, h', topic)
            && PendingRequests(s, h', topic)[id].requestId == id
  {
  }

  /** After a topic's history is deleted, nothing is pending on it. */
  lemma DeletedTopicHasNothingPending(s: Serializer, h: map<int, HistoryEntry>, topic: Topic)
    ensures PendingRequests(s, DeleteRequests(h, topic), topic) == map[]
  {
  }
}
