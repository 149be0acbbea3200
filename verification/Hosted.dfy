/**
 One dispatch of a hosted tool call: extras lifted out of the arguments, then the interceptors
 around the handler, with the handler's own reply kept beside the JSON they pass along.
 */
module Hosted {
  import opened Results
  import opened Chains

  datatype Value = Null | Object(fields: map<string, Value>) | Scalar(text: string)

  type Fields = map<string, Value>

  datatype InputRequest = Elicitation(params: string) | OtherInput(kind: string)

  /** A tool call. The last two fields are what a client adds when it answers an input request. */
  datatype Request = Request(
    name: string,
    arguments: Option<Fields>,
    responses: Option<Fields>,
    state: Option<string>)

  /** Input requests in their order, each under an id of its own. */
  type InputRequests = requests: seq<(string, InputRequest)> | DistinctIds(requests)

  predicate DistinctIds(requests: seq<(string, InputRequest)>) {
    forall j, k | 0 <= j < k < |requests| :: requests[j].0 != requests[k].0
  }

  /** What a handler asks its client for, and a state to hand back with the answers. */
  datatype Pending = Pending(requests: Option<InputRequests>, state: Option<string>)

  datatype CallResult = CallResult(content: seq<string>, structured: Option<Value>, isError: bool)

  datatype Response = Complete(result: CallResult) | InputRequired(pending: Pending) | Deferred(task: string)

  datatype Error = InvalidRequest(id: string) | Elicitation(cause: string) | AskedTooOften(tool: string) | Refused(code: int)

  type Outcome = Result<Response, Error>

  type ValueOutcome = Result<Value, Error>

  /** Everything dispatched earlier in the same call; what a handler or a client does may depend on it. */
  type Past = seq<Request>

  /** The handler inside: the request it is sent, and the extras put beside it. */
  type ToolHandler = (Past, Request, Fields) -> Outcome

  /** An interceptor, which may also go by the method's name and by what came before. */
  type ToolInterceptor = (Past, string) -> Interceptor<Value, ValueOutcome>

  /** A client's answer to one elicitation. */
  type Client = (Past, string, string) -> Result<Value, string>

  datatype ExtraProperty = ExtraProperty(name: string, contextKey: Option<string>)

  /** How results cross to JSON and back; `read` is `None` where the JSON is not a result. */
  datatype Json = Json(write: CallResult -> Value, read: Value -> Option<CallResult>, wrap: Value -> CallResult)

  datatype Hosting = Hosting(
    inner: ToolHandler,
    extras: seq<ExtraProperty>,
    interceptors: seq<ToolInterceptor>,
    methods: map<string, string>,
    json: Json)

  // ---------------------------------------------------------------- extras

  function Names(extras: seq<ExtraProperty>): set<string> {
    set k | 0 <= k < |extras| :: extras[k].name
  }

  /** `extract_extras`, on arguments that are an object: every field goes one way or the other. */
  method ExtractExtras(arguments: Fields, extras: seq<ExtraProperty>) returns (rest: Fields, found: Fields)
    ensures rest == arguments - Names(extras)
    ensures found == Found(arguments, extras)
    ensures rest.Keys !! found.Keys && rest + found == arguments
  {
    rest, found := arguments, map[];
    for k := 0 to |extras|
      invariant rest == arguments - Names(extras[..k])
      invariant found == Found(arguments, extras[..k])
    {
      var name := extras[k].name;
      assert Names(extras[..k + 1]) == Names(extras[..k]) + {name} by {
        assert extras[..k + 1] == extras[..k] + [extras[k]];
        assert extras[..k + 1][k].name == name;
        forall n | n in Names(extras[..k]) ensures n in Names(extras[..k + 1]) {
          var j :| 0 <= j < k && extras[..k][j].name == n;
          assert extras[..k + 1][j].name == n;
        }
        forall n | n in Names(extras[..k + 1]) && n != name ensures n in Names(extras[..k]) {
          var j :| 0 <= j < k + 1 && extras[..k + 1][j].name == n;
          assert extras[..k][j].name == n;
        }
      }
      if name in rest {
        found := found[name := rest[name]];
        rest := rest - {name};
      }
    }
    assert extras[..|extras|] == extras;
  }

  /** The extras that arguments carry. */
  function Found(arguments: Fields, extras: seq<ExtraProperty>): Fields {
    map n | n in arguments && n in Names(extras) :: arguments[n]
  }

  /** The extras under the keys they are stored by; of two sharing a key the later one stays. */
  function Keyed(found: Fields, extras: seq<ExtraProperty>): Fields {
    if extras == [] then map[]
    else
      var rest := Keyed(found, extras[..|extras| - 1]);
      var extra := extras[|extras| - 1];
      if extra.name in found then rest[StoredAs(extra) := found[extra.name]] else rest
  }

  /** Under which key an extra is stored. */
  function StoredAs(extra: ExtraProperty): string {
    extra.contextKey.UnwrapOr(extra.name)
  }

  /** Each extra the call carried is stored under its own key, unless a later one it carried has the same. */
  lemma {:induction false} KeyedExactly(found: Fields, extras: seq<ExtraProperty>, j: nat)
    requires j < |extras| && extras[j].name in found
    requires forall k | j < k < |extras| && extras[k].name in found :: StoredAs(extras[k]) != StoredAs(extras[j])
    ensures var key := StoredAs(extras[j]);
      key in Keyed(found, extras) && Keyed(found, extras)[key] == found[extras[j].name]
    decreases |extras|
  {
    if j < |extras| - 1 { KeyedExactly(found, extras[..|extras| - 1], j); }
  }

  // ---------------------------------------------------------------- one dispatch

  function AsObject(arguments: Value): Option<Fields> {
    if arguments.Object? then Some(arguments.fields) else None
  }

  /** What the handler answers when the chain ends on `arguments`. */
  function Answered(h: Hosting, past: Past, request: Request, arguments: Value): Outcome {
    var given := request.arguments.UnwrapOr(map[]);
    h.inner(past, request.(arguments := AsObject(arguments)), Keyed(Found(given, h.extras), h.extras))
  }

  /** A response as the chain sees it. */
  function AsJson(h: Hosting, outcome: Outcome): ValueOutcome {
    match outcome
    case Ok(Complete(result)) => Ok(h.json.write(result))
    case Ok(_) => Ok(Null)
    case Err(e) => Err(e)
  }

  function Terminal(h: Hosting, past: Past, request: Request): Handler<Value, ValueOutcome> {
    arguments => Ran(AsJson(h, Answered(h, past, request, arguments)), [Service(arguments)])
  }

  function Chain(h: Hosting, past: Past, request: Request): (chain: seq<Interceptor<Value, ValueOutcome>>)
    ensures |chain| == |h.interceptors|
  {
    var named := if request.name in h.methods then h.methods[request.name] else request.name;
    seq(|h.interceptors|, k requires 0 <= k < |h.interceptors| => h.interceptors[k](past, named))
  }

  /** What the chain is started on. */
  function Stripped(h: Hosting, request: Request): Value {
    Object(request.arguments.UnwrapOr(map[]) - Names(h.extras))
  }

  /** What the slot beside the chain holds once it has run. */
  function Slot(h: Hosting, past: Past, request: Request, trace: seq<Event<Value>>): Option<Response> {
    var served := Served(trace);
    if served == [] then None
    else match Answered(h, past, request, served[|served| - 1])
      case Ok(response) => Some(response)
      case Err(_) => None
  }

  /** `dispatch`. */
  function Dispatch(h: Hosting, past: Past, request: Request): Outcome {
    if h.interceptors == [] then Answered(h, past, request, Stripped(h, request))
    else
      var ran := InvokeFrom(Chain(h, past, request), 0, Terminal(h, past, request), Stripped(h, request));
      match ran.resp
      case Err(e) => Err(e)
      case Ok(value) =>
        match Slot(h, past, request, ran.trace)
        case Some(Complete(result)) => Ok(Complete(h.json.read(value).UnwrapOr(result)))
        case Some(other) => Ok(other)
        case None => Ok(Complete(h.json.read(value).UnwrapOr(h.json.wrap(value))))
  }

  /** What the handler answers, if the chain reaches it. */
  function Handled(h: Hosting, past: Past, request: Request): Option<Outcome> {
    var calls := Reaching(Chain(h, past, request), Stripped(h, request));
    if calls == [] then None else Some(Answered(h, past, request, calls[0]))
  }

  /** What the chain ends in. */
  function Chained(h: Hosting, past: Past, request: Request): ValueOutcome {
    Folded(Chain(h, past, request), 0, Terminal(h, past, request))(Stripped(h, request)).resp
  }

  /** The slot is filled exactly when the chain reached the handler and it answered. */
  lemma SlotFollowsThePath(h: Hosting, past: Past, request: Request)
    ensures var ran := InvokeFrom(Chain(h, past, request), 0, Terminal(h, past, request), Stripped(h, request));
      && ran.resp == Chained(h, past, request)
      && Slot(h, past, request, ran.trace) ==
         match Handled(h, past, request)
         case Some(Ok(response)) => Some(response)
         case _ => None
  {
    var chain := Chain(h, past, request);
    var terminal := Terminal(h, past, request);
    InvokeIsFold(chain, 0, terminal, Stripped(h, request));
    assert chain[0..] == chain;
    ServedAtMostOnce(chain, 0, terminal, Stripped(h, request));
  }

  /**
   What a dispatch through interceptors comes to: the chain's error; or the JSON it returned,
   read back as a result, in place of the handler's own result where it can be read, and where
   the handler was not reached, or failed and was forgiven, wrapped where it cannot.
   */
  lemma WhatComesOut(h: Hosting, past: Past, request: Request)
    requires h.interceptors != []
    ensures Dispatch(h, past, request) ==
      match Chained(h, past, request)
      case Err(e) => Err(e)
      case Ok(value) =>
        match Handled(h, past, request)
        case Some(Ok(Complete(result))) => Ok(Complete(h.json.read(value).UnwrapOr(result)))
        case Some(Ok(other)) => Ok(other)
        case _ => Ok(Complete(h.json.read(value).UnwrapOr(h.json.wrap(value))))
  {
    SlotFollowsThePath(h, past, request);
  }

  /** A call with no interceptors is the handler's, on what is left of the arguments. */
  lemma WithoutInterceptors(h: Hosting, past: Past, request: Request)
    requires h.interceptors == []
    ensures Handled(h, past, request) == Some(Dispatch(h, past, request))
  {
  }

  /**
   Whatever the interceptors do with the JSON, a reply of the handler's that is not a result
   comes out as it is, unless the chain ends in an error.
   */
  lemma InputRequiredSurvives(h: Hosting, past: Past, request: Request)
    requires Handled(h, past, request).Some?
    requires var reply := Handled(h, past, request).value; reply.Ok? && !reply.value.Complete?
    ensures Dispatch(h, past, request) ==
      if Chained(h, past, request).Err? then Err(Chained(h, past, request).error) else Handled(h, past, request).value
  {
    if h.interceptors == [] {
      WithoutInterceptors(h, past, request);
    } else {
      WhatComesOut(h, past, request);
    }
  }

  /** Nothing but the handler asks for input: a dispatch asks exactly when the handler does and the chain does not fail. */
  lemma OnlyTheHandlerAsks(h: Hosting, past: Past, request: Request, pending: Pending)
    ensures Dispatch(h, past, request) == Ok(InputRequired(pending))
       <==> Handled(h, past, request) == Some(Ok(InputRequired(pending))) && Chained(h, past, request).Ok?
  {
    if h.interceptors == [] {
      WithoutInterceptors(h, past, request);
    } else {
      WhatComesOut(h, past, request);
    }
  }

  /** Results that read back as what was written. */
  ghost predicate RoundTrips(json: Json) {
    forall result :: json.read(json.write(result)) == Some(result)
  }

  /**
   Interceptors that only look are no interceptors at all, errors included, provided results
   survive the trip through JSON.
   */
  lemma WatchersChangeNothing(h: Hosting, past: Past, request: Request)
    requires forall k | 0 <= k < |h.interceptors| :: PassesThrough(Chain(h, past, request)[k])
    requires RoundTrips(h.json)
    ensures Dispatch(h, past, request) == Dispatch(h.(interceptors := []), past, request)
  {
    TransparentChain(Chain(h, past, request), 0, Terminal(h, past, request), Stripped(h, request));
    if h.interceptors != [] { WhatComesOut(h, past, request); }
  }

  /** A hosted tool as its callers see it: what one dispatch answers, after what came before. */
  type Tool = (Past, Request) -> Outcome

  function AsTool(h: Hosting): Tool {
    (past, request) => Dispatch(h, past, request)
  }
}
