/**
 Interceptor chains. The repository writes them four times: recursion on the rest of the
 chain, recursion on an index, a loop that threads a request, and a reversed fold of layers.
 All of them are one right fold.
 */
module Chains {
  import opened Results

  /**
   What an interceptor does with one request. Its continuation is consumed by calling it, so
   it is called at most once: either it answers alone, or it passes a request on and then
   makes its own answer of the reply.
   */
  datatype Decision<!Req, !Resp> = Answer(resp: Resp) | Pass(req: Req, after: Resp -> Resp)

  type Interceptor<!Req, !Resp> = Req -> Decision<Req, Resp>

  /** What happened: an interceptor entered or left, or the service ran. */
  datatype Event<Req> = Enter(position: nat) | Leave(position: nat) | Service(req: Req)

  datatype Ran<Req, Resp> = Ran(resp: Resp, trace: seq<Event<Req>>)

  type Handler<!Req, !Resp> = Req -> Ran<Req, Resp>

  /** One interceptor around `next`. */
  function Intercept<Req, Resp>(i: Interceptor<Req, Resp>, position: nat, next: Handler<Req, Resp>): Handler<Req, Resp> {
    req =>
      match i(req)
      case Answer(resp) => Ran(resp, [Enter(position), Leave(position)])
      case Pass(passed, after) =>
        var ran := next(passed);
        Ran(after(ran.resp), [Enter(position)] + ran.trace + [Leave(position)])
  }

  /** The right fold of a chain over the service at its end. */
  function Folded<Req, Resp>(chain: seq<Interceptor<Req, Resp>>, position: nat, terminal: Handler<Req, Resp>): Handler<Req, Resp>
    decreases |chain|
  {
    if chain == [] then terminal
    else Intercept(chain[0], position, Folded(chain[1..], position + 1, terminal))
  }

  /** `Next::run` and `StreamNext::run`: split off the first, hand it the rest. */
  function Run<Req, Resp>(rest: seq<Interceptor<Req, Resp>>, position: nat, terminal: Handler<Req, Resp>, req: Req): Ran<Req, Resp>
    decreases |rest|
  {
    if rest == [] then terminal(req)
    else Intercept(rest[0], position, r => Run(rest[1..], position + 1, terminal, r))(req)
  }

  /** `Interceptors::invoke_from`: the position in the chain rather than the chain's tail. */
  function InvokeFrom<Req, Resp>(chain: seq<Interceptor<Req, Resp>>, index: nat, handler: Handler<Req, Resp>, req: Req): Ran<Req, Resp>
    decreases |chain| - index
  {
    if index >= |chain| then handler(req)
    else Intercept(chain[index], index, r => InvokeFrom(chain, index + 1, handler, r))(req)
  }

  lemma {:induction false} RunIsFold<Req, Resp>(rest: seq<Interceptor<Req, Resp>>, position: nat, terminal: Handler<Req, Resp>, req: Req)
    ensures Run(rest, position, terminal, req) == Folded(rest, position, terminal)(req)
    decreases |rest|
  {
    if rest != [] {
      match rest[0](req)
      case Answer(_) =>
      case Pass(passed, _) => RunIsFold(rest[1..], position + 1, terminal, passed);
    }
  }

  lemma {:induction false} InvokeIsFold<Req, Resp>(chain: seq<Interceptor<Req, Resp>>, index: nat, handler: Handler<Req, Resp>, req: Req)
    requires index <= |chain|
    ensures InvokeFrom(chain, index, handler, req) == Folded(chain[index..], index, handler)(req)
    decreases |chain| - index
  {
    if index < |chain| {
      assert chain[index..][1..] == chain[index + 1..];
      match chain[index](req)
      case Answer(_) =>
      case Pass(passed, _) => InvokeIsFold(chain, index + 1, handler, passed);
    }
  }

  /** Chaining two chains end to end runs the second inside the first. */
  lemma {:induction false} ConcatComposes<Req, Resp>(a: seq<Interceptor<Req, Resp>>, b: seq<Interceptor<Req, Resp>>,
                                  position: nat, terminal: Handler<Req, Resp>, req: Req)
    ensures Folded(a + b, position, terminal)(req)
         == Folded(a, position, Folded(b, position + |a|, terminal))(req)
    decreases |a|
  {
    if a == [] {
      assert a + b == b;
    } else {
      assert (a + b)[1..] == a[1..] + b;
      match a[0](req)
      case Answer(_) =>
      case Pass(passed, _) => ConcatComposes(a[1..], b, position + 1, terminal, passed);
    }
  }

  /** An interceptor that passes every request on as it came and returns every reply as it is. */
  ghost predicate PassesThrough<Req(!new), Resp(!new)>(i: Interceptor<Req, Resp>) {
    forall req :: i(req).Pass? && i(req).req == req && forall resp :: i(req).after(resp) == resp
  }

  /** A pass-through interceptor anywhere in a chain changes no answer. */
  lemma {:induction false} PassThroughIsNeutral<Req(!new), Resp(!new)>(a: seq<Interceptor<Req, Resp>>, i: Interceptor<Req, Resp>,
                                      b: seq<Interceptor<Req, Resp>>, position: nat,
                                      other: nat, terminal: Handler<Req, Resp>, req: Req)
    requires PassesThrough(i)
    ensures Folded(a + [i] + b, position, terminal)(req).resp
         == Folded(a + b, other, terminal)(req).resp
    decreases |a|
  {
    if a == [] {
      assert (a + [i] + b)[1..] == b && a + b == b;
      PositionsOnlyLabel(b, position + 1, other, terminal, req);
      assert i(req).req == req;
    } else {
      assert (a + [i] + b)[1..] == a[1..] + [i] + b;
      assert (a + b)[1..] == a[1..] + b;
      match a[0](req)
      case Answer(_) =>
      case Pass(passed, _) => PassThroughIsNeutral(a[1..], i, b, position + 1, other + 1, terminal, passed);
    }
  }

  lemma {:induction false} PositionsOnlyLabel<Req, Resp>(chain: seq<Interceptor<Req, Resp>>, p: nat, q: nat,
                                      terminal: Handler<Req, Resp>, req: Req)
    ensures Folded(chain, p, terminal)(req).resp == Folded(chain, q, terminal)(req).resp
    decreases |chain|
  {
    if chain != [] {
      match chain[0](req)
      case Answer(_) =>
      case Pass(passed, _) => PositionsOnlyLabel(chain[1..], p + 1, q + 1, terminal, passed);
    }
  }

  /**
   The requests a call carries on its way in: the first as it arrived, each next one as the
   interceptor before it passed it on, down to one that answered or to the service.
   */
  ghost predicate IsPath<Req, Resp>(chain: seq<Interceptor<Req, Resp>>, req: Req, path: seq<Req>) {
    && 1 <= |path| <= |chain| + 1
    && path[0] == req
    && (forall k | 0 <= k < |path| - 1 :: chain[k](path[k]).Pass? && chain[k](path[k]).req == path[k + 1])
    && (|path| <= |chain| ==> chain[|path| - 1](path[|path| - 1]).Answer?)
  }

  /** The path a request takes down a chain. */
  function PathOf<Req, Resp>(chain: seq<Interceptor<Req, Resp>>, req: Req): seq<Req>
    decreases |chain|
  {
    if chain == [] then [req]
    else match chain[0](req)
      case Answer(_) => [req]
      case Pass(passed, _) => [req] + PathOf(chain[1..], passed)
  }

  /** Every request has one path down every chain. */
  lemma {:induction false} PathOfExactly<Req(!new), Resp>(chain: seq<Interceptor<Req, Resp>>, req: Req, path: seq<Req>)
    ensures IsPath(chain, req, path) <==> path == PathOf(chain, req)
    decreases |chain|
  {
    if chain == [] {
      if IsPath(chain, req, path) { assert path == [path[0]]; }
    } else {
      match chain[0](req)
      case Answer(_) =>
        if IsPath(chain, req, path) {
          assert path == [path[0]];
        }
      case Pass(passed, _) =>
        if path != [] { PathOfExactly(chain[1..], passed, path[1..]); }
        if IsPath(chain, req, path) {
          PathTail(chain, req, path);
          assert path == [path[0]] + path[1..];
        }
        if path == PathOf(chain, req) { PathGrows(chain, req, path); }
    }
  }

  /** A path down the rest of a chain, after a step that passes the request on, is a path down all of it. */
  lemma PathGrows<Req, Resp>(chain: seq<Interceptor<Req, Resp>>, req: Req, path: seq<Req>)
    requires chain != [] && chain[0](req).Pass? && path != [] && path[0] == req
    requires IsPath(chain[1..], chain[0](req).req, path[1..])
    ensures IsPath(chain, req, path)
  {
    var rest := path[1..];
    forall k | 0 <= k < |path| - 1
      ensures chain[k](path[k]).Pass? && chain[k](path[k]).req == path[k + 1]
    {
      if k > 0 { assert chain[1..][k - 1](rest[k - 1]).Pass? && chain[1..][k - 1](rest[k - 1]).req == rest[k]; }
    }
    if |path| <= |chain| { assert chain[1..][|rest| - 1] == chain[|path| - 1]; }
  }

  lemma PathTail<Req, Resp>(chain: seq<Interceptor<Req, Resp>>, req: Req, path: seq<Req>)
    requires IsPath(chain, req, path) && chain != [] && chain[0](req).Pass?
    ensures |path| > 1 && IsPath(chain[1..], chain[0](req).req, path[1..])
  {
    forall k | 0 <= k < |path[1..]| - 1
      ensures chain[1..][k](path[1..][k]).Pass? && chain[1..][k](path[1..][k]).req == path[1..][k + 1]
    {
      assert chain[k + 1](path[k + 1]).Pass?;
    }
  }

  /** A path is never longer than the chain and the service at its end. */
  lemma {:induction false} PathIsBounded<Req, Resp>(chain: seq<Interceptor<Req, Resp>>, req: Req)
    ensures 1 <= |PathOf(chain, req)| <= |chain| + 1
    decreases |chain|
  {
    if chain != [] {
      match chain[0](req)
      case Answer(_) =>
      case Pass(passed, _) => PathIsBounded(chain[1..], passed);
    }
  }

  function Enters<Req>(position: nat, n: nat): (s: seq<Event<Req>>) {
    seq(n, k requires 0 <= k => Enter(position + k))
  }

  function Leaves<Req>(position: nat, n: nat): seq<Event<Req>> {
    seq(n, k requires 0 <= k < n => Leave(position + n - 1 - k))
  }

  /** How many interceptors a request enters. */
  function Entered<Req, Resp>(chain: seq<Interceptor<Req, Resp>>, req: Req): nat {
    if |PathOf(chain, req)| <= |chain| then |PathOf(chain, req)| else |chain|
  }

  /** What the service is called with: the end of a path that leads to it. */
  function Reaching<Req, Resp>(chain: seq<Interceptor<Req, Resp>>, req: Req): (calls: seq<Req>)
    ensures |calls| <= 1
  {
    var path := PathOf(chain, req);
    if |path| <= |chain| then [] else [path[|chain|]]
  }

  function Calls<Req>(reqs: seq<Req>): (events: seq<Event<Req>>)
    ensures |events| == |reqs|
  {
    if reqs == [] then [] else [Service(reqs[0])] + Calls(reqs[1..])
  }

  lemma PassedOn<Req, Resp>(chain: seq<Interceptor<Req, Resp>>, req: Req)
    requires chain != [] && chain[0](req).Pass?
    ensures Entered(chain, req) == Entered(chain[1..], chain[0](req).req) + 1
    ensures Reaching(chain, req) == Reaching(chain[1..], chain[0](req).req)
  {
    PathIsBounded(chain[1..], chain[0](req).req);
  }

  /**
   Every run is well bracketed: the interceptors on the path are entered in order and left in
   reverse. When one of them answers, nothing after it is entered and the service does not
   run; otherwise the service runs once, on the request the last interceptor passed on.
   */
  lemma {:induction false} RunsAreBracketed<Req(!new), Resp>(chain: seq<Interceptor<Req, Resp>>, position: nat,
                                    terminal: Handler<Req, Resp>, req: Req)
    requires forall r :: terminal(r).trace == [Service(r)]
    ensures var entered := Entered(chain, req);
      Folded(chain, position, terminal)(req).trace
      == Enters(position, entered) + Calls(Reaching(chain, req)) + Leaves(position, entered)
    decreases |chain|
  {
    if chain != [] {
      match chain[0](req)
      case Answer(_) =>
      case Pass(passed, _) =>
        RunsAreBracketed(chain[1..], position + 1, terminal, passed);
        PassedOn(chain, req);
        BracketsNest<Req>(position, Entered(chain, req));
    }
  }

  lemma BracketsNest<Req>(position: nat, n: nat)
    requires n > 0
    ensures Enters<Req>(position, n) == [Enter(position)] + Enters(position + 1, n - 1)
    ensures Leaves<Req>(position, n) == Leaves(position + 1, n - 1) + [Leave(position)]
  {
  }

  /** The requests the service was called with during a run. */
  function Served<Req>(trace: seq<Event<Req>>): seq<Req>
    decreases |trace|
  {
    if trace == [] then []
    else (match trace[0] case Service(req) => [req] case _ => []) + Served(trace[1..])
  }

  lemma {:induction false} ServedConcat<Req>(a: seq<Event<Req>>, b: seq<Event<Req>>)
    ensures Served(a + b) == Served(a) + Served(b)
    decreases |a|
  {
    if a == [] {
      assert a + b == b;
    } else {
      assert (a + b)[0] == a[0] && (a + b)[1..] == a[1..] + b;
      ServedConcat(a[1..], b);
    }
  }

  lemma {:induction false} BracketsServeNobody<Req>(trace: seq<Event<Req>>)
    requires forall k | 0 <= k < |trace| :: !trace[k].Service?
    ensures Served(trace) == []
    decreases |trace|
  {
    if trace != [] { BracketsServeNobody(trace[1..]); }
  }

  lemma ServedCalls<Req>(reqs: seq<Req>)
    requires |reqs| <= 1
    ensures Served(Calls(reqs)) == reqs
  {
    if reqs != [] { assert Calls(reqs)[1..] == []; }
  }

  /** The service runs once, on what the last interceptor passed on, or not at all. */
  lemma ServedAtMostOnce<Req(!new), Resp>(chain: seq<Interceptor<Req, Resp>>, position: nat,
                                    terminal: Handler<Req, Resp>, req: Req)
    requires forall r :: terminal(r).trace == [Service(r)]
    ensures Served(Folded(chain, position, terminal)(req).trace) == Reaching(chain, req)
  {
    var entered := Entered(chain, req);
    var calls := Calls(Reaching(chain, req));
    RunsAreBracketed(chain, position, terminal, req);
    ServedConcat(Enters(position, entered) + calls, Leaves(position, entered));
    ServedConcat(Enters(position, entered), calls);
    BracketsServeNobody<Req>(Enters(position, entered));
    BracketsServeNobody<Req>(Leaves(position, entered));
    ServedCalls(Reaching(chain, req));
  }

  /** A chain of interceptors that only look is no chain at all. */
  lemma {:induction false} TransparentChain<Req(!new), Resp(!new)>(chain: seq<Interceptor<Req, Resp>>, position: nat,
                                            terminal: Handler<Req, Resp>, req: Req)
    requires forall k | 0 <= k < |chain| :: PassesThrough(chain[k])
    ensures Folded(chain, position, terminal)(req).resp == terminal(req).resp
    ensures Reaching(chain, req) == [req]
    decreases |chain|
  {
    if chain != [] {
      assert PassesThrough(chain[0]);
      assert chain[0](req).Pass? && chain[0](req).req == req;
      TransparentChain(chain[1..], position + 1, terminal, req);
      PassedOn(chain, req);
    }
  }

  // ---------------------------------------------------------------- the loop

  /** A metadata interceptor: rewrites the request or refuses it. */
  type Guard<!Req, !E> = Req -> Result<Req, E>

  /** A metadata interceptor as an interceptor of the general kind. */
  function AsInterceptor<Req, E>(guard: Guard<Req, E>): Interceptor<Req, Result<Req, E>> {
    req => match guard(req) case Ok(passed) => Pass(passed, resp => resp) case Err(e) => Answer(Err(e))
  }

  /** A list of them as a chain whose end accepts whatever reaches it. */
  function AsChain<Req, E>(guards: seq<Guard<Req, E>>): (chain: seq<Interceptor<Req, Result<Req, E>>>)
    ensures |chain| == |guards|
    ensures forall k | 0 <= k < |guards| :: chain[k] == AsInterceptor(guards[k])
  {
    seq(|guards|, k requires 0 <= k < |guards| => AsInterceptor(guards[k]))
  }

  function Accept<Req, E>(): Handler<Req, Result<Req, E>> {
    req => Ran(Ok(req), [Service(req)])
  }

  /** `chain`: the request threaded through every interceptor, stopping at the first refusal. */
  method Chain<Req, E>(guards: seq<Guard<Req, E>>, request: Req) returns (result: Result<Req, E>)
    ensures result == Folded(AsChain(guards), 0, Accept<Req, E>())(request).resp
  {
    var current := request;
    for k := 0 to |guards|
      invariant Folded(AsChain(guards), 0, Accept<Req, E>())(request).resp
             == Folded(AsChain(guards)[k..], k, Accept<Req, E>())(current).resp
    {
      assert AsChain(guards)[k..][1..] == AsChain(guards)[k + 1..];
      match guards[k](current)
      case Ok(passed) => current := passed;
      case Err(e) => return Err(e);
    }
    return Ok(current);
  }

  // ---------------------------------------------------------------- the layers

  /** The first layer outermost. */
  function Layered<S>(layers: seq<S -> S>, inner: S): S
    decreases |layers|
  {
    if layers == [] then inner else layers[0](Layered(layers[1..], inner))
  }

  /** `GrpcLayers::layer`: a fold over the reversed list. */
  method Layer<S>(layers: seq<S -> S>, inner: S) returns (service: S)
    ensures service == Layered(layers, inner)
  {
    service := inner;
    var k := |layers|;
    while k > 0
      invariant 0 <= k <= |layers|
      invariant service == Layered(layers[k..], inner)
    {
      k := k - 1;
      assert layers[k..][1..] == layers[k + 1..];
      service := layers[k](service);
    }
  }

  lemma {:induction false} LayersCompose<S>(a: seq<S -> S>, b: seq<S -> S>, inner: S)
    ensures Layered(a + b, inner) == Layered(a, Layered(b, inner))
    decreases |a|
  {
    if a == [] {
      assert a + b == b;
    } else {
      assert (a + b)[1..] == a[1..] + b;
      LayersCompose(a[1..], b, inner);
    }
  }

  /** Every interceptor of a chain as a layer of its own. */
  function AsLayers<Req, Resp>(chain: seq<Interceptor<Req, Resp>>, position: nat): (layers: seq<Handler<Req, Resp> -> Handler<Req, Resp>>)
    ensures |layers| == |chain|
    decreases |chain|
  {
    if chain == [] then []
    else
      var outer: Handler<Req, Resp> -> Handler<Req, Resp> := next => Intercept(chain[0], position, next);
      [outer] + AsLayers(chain[1..], position + 1)
  }

  /** Installing the interceptors of a chain one layer at a time installs the chain. */
  lemma {:induction false} LayersAreFold<Req, Resp>(chain: seq<Interceptor<Req, Resp>>, position: nat, terminal: Handler<Req, Resp>)
    ensures Layered(AsLayers(chain, position), terminal) == Folded(chain, position, terminal)
    decreases |chain|
  {
    if chain != [] {
      LayersAreFold(chain[1..], position + 1, terminal);
      assert AsLayers(chain, position)[1..] == AsLayers(chain[1..], position + 1);
    }
  }

  // ---------------------------------------------------------------- which chain runs

  /** What is known of a method: nothing, or which sides of it stream. */
  datatype Shape = Unknown | Known(clientStreams: bool, serverStreams: bool)

  /** `Intercepted::call` runs its chain rather than passing the call to the service. */
  predicate RunsMessageChain(installed: nat, shape: Shape) {
    installed != 0 && !(shape.Unknown? || shape.clientStreams || shape.serverStreams)
  }

  /** `StreamIntercepted::call` does. */
  predicate RunsStreamChain(installed: nat, shape: Shape) {
    installed != 0 && !(shape.Known? && !shape.clientStreams && !shape.serverStreams)
  }

  /** With both chains installed each call runs exactly one, and an unknown method is a stream. */
  lemma ExactlyOneChainRuns(messages: nat, streams: nat, shape: Shape)
    requires messages != 0 && streams != 0
    ensures RunsMessageChain(messages, shape) <==> !RunsStreamChain(streams, shape)
    ensures shape.Unknown? ==> RunsStreamChain(streams, shape)
  {
  }
}
