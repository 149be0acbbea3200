/**
 The message-level chain around a unary call: the body is read as one message, the chain runs
 over it, and whatever the chain decides is rendered as a response.
 */
module UnaryIntercept {
  import opened Results
  import opened ByteStrings
  import opened GrpcStatus
  import opened Chains
  import opened Framing

  /** A request as the service receives it. */
  datatype Request = Request(metadata: Headers, body: Bytes)

  /** A whole response: its head, its body or the error that broke it, and its trailers. */
  datatype Response = Response(head: Headers, body: Result<Bytes, Status>, trailers: Headers)

  datatype UnaryCall = UnaryCall(metadata: Headers, payload: Bytes, compressed: bool)

  datatype UnaryReply = UnaryReply(metadata: Headers, trailers: Headers, payload: Bytes, compressed: bool)

  type UnaryResult = Result<UnaryReply, Status>

  const NOT_ONE_MESSAGE := Status(INTERNAL, "the service's reply was not one gRPC message", map[])

  /** A status as a response of its own. */
  function IntoHttp(status: Status): Response {
    Response(Rendered(Err(status)), Ok([]), NO_HEADERS)
  }

  /** The code a response ends with, wherever it says so. */
  function ResponseCode(response: Response): Code {
    if CodeRead(response.head) != OK then CodeRead(response.head)
    else match response.body
      case Err(status) => status.code
      case Ok(_) => CodeRead(response.trailers)
  }

  /** What the service is sent for a call. */
  function Forwarded(call: UnaryCall): Request {
    Request(call.metadata, Wire(call.compressed, call.payload))
  }

  /** `forward`: the service's response read back as a reply, or as the status it carries. */
  function ReadBack(response: Response): UnaryResult {
    if CodeRead(response.head) != OK then Err(StatusOf(response.head).value)
    else match response.body
      case Err(status) => Err(status)
      case Ok(bytes) =>
        if CodeRead(response.trailers) != OK then Err(StatusOf(response.trailers).value)
        else match Parsed(bytes)
          case None => Err(NOT_ONE_MESSAGE)
          case Some((compressed, payload)) => Ok(UnaryReply(response.head, response.trailers, payload, compressed))
  }

  /** `render`: headers, one framed message, trailers that always carry a status. */
  function Render(reply: UnaryReply): Response {
    Response(reply.metadata, Ok(Wire(reply.compressed, reply.payload)),
             if reply.trailers.status.None? then reply.trailers.(status := Some(OK)) else reply.trailers)
  }

  /** The chain's end: the service, called once on what reached it. */
  function Terminal(service: Request -> Response): Handler<UnaryCall, UnaryResult> {
    var answer := Answers(service);
    call => Ran(answer(call), [Service(call)])
  }

  function Answers(service: Request -> Response): UnaryCall -> UnaryResult {
    call => ReadBack(service(Forwarded(call)))
  }

  /** The call a request's body is read as. */
  function CallOf(metadata: Headers, message: (bool, Bytes)): UnaryCall {
    UnaryCall(metadata, message.1, message.0)
  }

  /** `intercept`: the response to a request whose body is `body`, or broke while being read. */
  function Intercepted(chain: seq<Interceptor<UnaryCall, UnaryResult>>, service: Request -> Response,
                       metadata: Headers, body: Result<Bytes, Status>): Response {
    match body
    case Err(status) => IntoHttp(status)
    case Ok(bytes) =>
      match Parsed(bytes)
      // Not exactly one message: not the chain's to interpret, so it goes on as sent.
      case None => service(Request(metadata, bytes))
      case Some(message) =>
        match Run(chain, 0, Terminal(service), CallOf(metadata, message)).resp
        case Ok(reply) => Render(reply)
        case Err(status) => IntoHttp(status)
  }

  /** Every request the service is called with while `intercept` runs, in order. */
  function ServiceSees(chain: seq<Interceptor<UnaryCall, UnaryResult>>, service: Request -> Response,
                       metadata: Headers, body: Result<Bytes, Status>): seq<Request> {
    match body
    case Err(_) => []
    case Ok(bytes) =>
      match Parsed(bytes)
      case None => [Request(metadata, bytes)]
      case Some(message) =>
        var calls := Served(Run(chain, 0, Terminal(service), CallOf(metadata, message)).trace);
        seq(|calls|, k requires 0 <= k < |calls| => Forwarded(calls[k]))
  }

  /** What the service is called with, whatever the chain and the body: the body as sent when it is not one message. */
  function Reaches(chain: seq<Interceptor<UnaryCall, UnaryResult>>, metadata: Headers, body: Result<Bytes, Status>): Option<Request> {
    match body
    case Err(_) => None
    case Ok(bytes) =>
      match Parsed(bytes)
      case None => Some(Request(metadata, bytes))
      case Some(message) =>
        var calls := Reaching(chain, CallOf(metadata, message));
        if calls == [] then None else Some(Forwarded(calls[0]))
  }

  /** Whatever the chain does with whatever body, the service is called at most once. */
  lemma ServiceIsCalledAtMostOnce(chain: seq<Interceptor<UnaryCall, UnaryResult>>, service: Request -> Response,
                                  metadata: Headers, body: Result<Bytes, Status>)
    ensures |ServiceSees(chain, service, metadata, body)| <= 1
    ensures ServiceSees(chain, service, metadata, body)
         == match Reaches(chain, metadata, body) case None => [] case Some(request) => [request]
  {
    if body.Ok? && Parsed(body.value).Some? {
      var call := CallOf(metadata, Parsed(body.value).value);
      RunIsFold(chain, 0, Terminal(service), call);
      ServedAtMostOnce(chain, 0, Terminal(service), call);
    }
  }

  /**
   A chain of interceptors that only look hands the service byte for byte what the caller
   sent, once, whatever it was: one message, several, or none.
   */
  lemma TransparentChainForwardsBytes(chain: seq<Interceptor<UnaryCall, UnaryResult>>, service: Request -> Response,
                                      metadata: Headers, bytes: Bytes)
    requires forall k | 0 <= k < |chain| :: PassesThrough(chain[k])
    ensures ServiceSees(chain, service, metadata, Ok(bytes)) == [Request(metadata, bytes)]
  {
    if Parsed(bytes).Some? {
      var call := CallOf(metadata, Parsed(bytes).value);
      TransparentChain(chain, 0, Terminal(service), call);
      ServiceIsCalledAtMostOnce(chain, service, metadata, Ok(bytes));
      ParsedExactly(bytes, call.compressed, call.payload);
    }
  }

  /** A response read back and rendered again. */
  function Relayed(heard: Response): Response {
    match ReadBack(heard)
    case Ok(reply) => Render(reply)
    case Err(status) => IntoHttp(status)
  }

  /**
   Relaying keeps the code, unless the service claimed success without sending one message,
   which is an internal error; and on success the headers and the bytes.
   */
  lemma RelayedExactly(heard: Response)
    ensures ResponseCode(heard) != OK || heard.body.Err? ==> ResponseCode(Relayed(heard)) == ResponseCode(heard)
    ensures ResponseCode(heard) == OK && heard.body.Ok? ==>
      if Parsed(heard.body.value).None? then ResponseCode(Relayed(heard)) == INTERNAL
      else Relayed(heard) == Response(heard.head, heard.body, heard.trailers.(status := Some(OK)))
  {
    if heard.body.Ok? && Parsed(heard.body.value).Some? {
      var (compressed, payload) := Parsed(heard.body.value).value;
      ParsedExactly(heard.body.value, compressed, payload);
    }
  }

  lemma TransparentChainRelays(chain: seq<Interceptor<UnaryCall, UnaryResult>>, service: Request -> Response,
                               metadata: Headers, bytes: Bytes)
    requires forall k | 0 <= k < |chain| :: PassesThrough(chain[k])
    ensures Intercepted(chain, service, metadata, Ok(bytes)) ==
      if Parsed(bytes).None? then service(Request(metadata, bytes)) else Relayed(service(Request(metadata, bytes)))
  {
    if Parsed(bytes).Some? {
      var call := CallOf(metadata, Parsed(bytes).value);
      ParsedExactly(bytes, call.compressed, call.payload);
      RunIsFold(chain, 0, Terminal(service), call);
      TransparentChain(chain, 0, Terminal(service), call);
      assert Forwarded(call) == Request(metadata, bytes);
    }
  }

  /**
   And the caller hears what the service said: the same code, unless the service claimed
   success without sending one message, which is an internal error; and on success the same
   headers and the same bytes. What is not one message is answered as the service answers it.
   */
  lemma TransparentChainReturnsTheReply(chain: seq<Interceptor<UnaryCall, UnaryResult>>, service: Request -> Response,
                                        metadata: Headers, bytes: Bytes)
    requires forall k | 0 <= k < |chain| :: PassesThrough(chain[k])
    ensures var heard := service(Request(metadata, bytes));
      var got := Intercepted(chain, service, metadata, Ok(bytes));
      && (Parsed(bytes).None? ==> got == heard)
      && (ResponseCode(heard) != OK || heard.body.Err? ==> ResponseCode(got) == ResponseCode(heard))
      && (Parsed(bytes).Some? && ResponseCode(heard) == OK && heard.body.Ok? ==>
            if Parsed(heard.body.value).None? then ResponseCode(got) == INTERNAL
            else got == Response(heard.head, heard.body, heard.trailers.(status := Some(OK))))
  {
    TransparentChainRelays(chain, service, metadata, bytes);
    RelayedExactly(service(Request(metadata, bytes)));
  }

  /** The chain sees every well-formed call: an answer of its own reaches the caller as given. */
  lemma RefusalReachesTheCaller(chain: seq<Interceptor<UnaryCall, UnaryResult>>, service: Request -> Response,
                                metadata: Headers, bytes: Bytes, status: Status)
    requires Parsed(bytes).Some? && chain != []
    requires chain[0](CallOf(metadata, Parsed(bytes).value)) == Answer(Err(status))
    ensures Intercepted(chain, service, metadata, Ok(bytes)) == IntoHttp(status)
    ensures ServiceSees(chain, service, metadata, Ok(bytes)) == []
  {
    var call := CallOf(metadata, Parsed(bytes).value);
    ServiceIsCalledAtMostOnce(chain, service, metadata, Ok(bytes));
  }
}
