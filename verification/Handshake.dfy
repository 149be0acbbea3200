/**
 The input-required handshake, run on behalf of a client too old to be sent an input request:
 it is asked through ordinary elicitations and the call is made again with its answers.
 */
module Handshakes {
  import opened Results
  import opened Hosted

  // ---------------------------------------------------------------- answering for the client

  type Requests = seq<(string, InputRequest)>

  function Asks(pending: Pending): Requests {
    match pending.requests
    case Some(requests) => requests
    case None => []
  }

  /** One request is an elicitation and the client answers it. */
  predicate Answers(client: Client, past: Past, request: (string, InputRequest)) {
    request.1.Elicitation? && client(past, request.0, request.1.params).Ok?
  }

  /** What goes wrong with a request that is not answered. */
  function Trouble(client: Client, past: Past, request: (string, InputRequest)): Error
    requires !Answers(client, past, request)
  {
    if request.1.Elicitation? then Error.Elicitation(client(past, request.0, request.1.params).error)
    else InvalidRequest(request.0)
  }

  /** Request `k` is the first that is not answered, for the reason `e`. */
  ghost predicate FirstTrouble(client: Client, past: Past, requests: Requests, k: nat, e: Error)
    requires k < |requests|
  {
    && (forall j | 0 <= j < k :: Answers(client, past, requests[j]))
    && !Answers(client, past, requests[k])
    && e == Trouble(client, past, requests[k])
  }

  /** `answers` holds the client's answer to each of `requests` under its id, and nothing else. */
  ghost predicate AnswersTo(client: Client, past: Past, requests: Requests, answers: Fields) {
    && (forall k | 0 <= k < |requests| :: Answers(client, past, requests[k]))
    && (forall k | 0 <= k < |requests| ::
          && requests[k].0 in answers
          && answers[requests[k].0] == client(past, requests[k].0, requests[k].1.params).value)
    && (forall id | id in answers :: exists k | 0 <= k < |requests| :: requests[k].0 == id)
  }

  /**
   `fulfil`: every request answered in its order, or the trouble with the first that is not.
   `asked` counts the elicitations the client was sent, none of them past that one.
   */
  method Fulfil(client: Client, past: Past, requests: Requests) returns (result: Result<Fields, Error>, asked: nat)
    requires DistinctIds(requests)
    ensures result.Ok? ==> AnswersTo(client, past, requests, result.value) && asked == |requests|
    ensures result.Err? ==> exists k | 0 <= k < |requests| ::
      && FirstTrouble(client, past, requests, k, result.error)
      && asked == k + (if requests[k].1.Elicitation? then 1 else 0)
  {
    var answers: Fields := map[];
    asked := 0;
    for k := 0 to |requests|
      invariant asked == k
      invariant AnswersTo(client, past, requests[..k], answers)
    {
      var (id, request) := requests[k];
      assert requests[..k + 1] == requests[..k] + [requests[k]];
      if !request.Elicitation? {
        assert forall j | 0 <= j < k :: requests[j] == requests[..k][j];
        assert FirstTrouble(client, past, requests, k, InvalidRequest(id));
        return Err(InvalidRequest(id)), asked;
      }
      asked := asked + 1;
      var answer := client(past, id, request.params);
      if answer.Err? {
        assert forall j | 0 <= j < k :: requests[j] == requests[..k][j];
        assert FirstTrouble(client, past, requests, k, Error.Elicitation(answer.error));
        return Err(Error.Elicitation(answer.error)), asked;
      }
      AnswersMore(client, past, requests[..k], answers, requests[k]);
      answers := answers[id := answer.value];
    }
    assert requests[..|requests|] == requests;
    result := Ok(answers);
  }

  lemma AnswersMore(client: Client, past: Past, requests: Requests, answers: Fields, more: (string, InputRequest))
    requires AnswersTo(client, past, requests, answers) && Answers(client, past, more)
    requires forall k | 0 <= k < |requests| :: requests[k].0 != more.0
    ensures AnswersTo(client, past, requests + [more], answers[more.0 := client(past, more.0, more.1.params).value])
  {
    var grown := answers[more.0 := client(past, more.0, more.1.params).value];
    forall id | id in grown ensures exists k | 0 <= k < |requests + [more]| :: (requests + [more])[k].0 == id {
      if id == more.0 {
        assert (requests + [more])[|requests|].0 == id;
      } else {
        var k :| 0 <= k < |requests| && requests[k].0 == id;
        assert (requests + [more])[k].0 == id;
      }
    }
  }

  /** Two sets of answers to the same requests are the same answers. */
  lemma AnswersAreDetermined(client: Client, past: Past, requests: Requests, a: Fields, b: Fields)
    requires AnswersTo(client, past, requests, a) && AnswersTo(client, past, requests, b)
    ensures a == b
  {
    forall id ensures id in a <==> id in b {
    }
    forall id | id in a ensures a[id] == b[id] {
      var k :| 0 <= k < |requests| && requests[k].0 == id;
    }
  }

  // ---------------------------------------------------------------- the handshake

  const MAX_ELICITATION_ROUNDS := 8

  /** One round a client goes through: what it was asked, and what it answered. */
  datatype Round = Round(pending: Pending, answers: Fields)

  /** Every answer given over `rounds`, a later one replacing an earlier one under its id. */
  function Accumulated(given: Fields, rounds: seq<Round>): Fields {
    if rounds == [] then given
    else Accumulated(given, rounds[..|rounds| - 1]) + rounds[|rounds| - 1].answers
  }

  /**
   What a client that speaks the handshake sends after `rounds`: the call it began with, every
   answer so far, and the state it was last handed.
   */
  function Resent(request: Request, rounds: seq<Round>): Request {
    if rounds == [] then request
    else request.(
      responses := Some(Accumulated(request.responses.UnwrapOr(map[]), rounds)),
      state := rounds[|rounds| - 1].pending.state)
  }

  /** Everything sent before that. */
  function Before(request: Request, rounds: seq<Round>): (past: Past)
    ensures |past| == |rounds|
  {
    if rounds == [] then []
    else
      var earlier := rounds[..|rounds| - 1];
      Before(request, earlier) + [Resent(request, earlier)]
  }

  /** Everything sent up to then. */
  function Sent(request: Request, rounds: seq<Round>): Past {
    Before(request, rounds) + [Resent(request, rounds)]
  }

  /** The reply to the request after `rounds`. */
  function Reply(tool: Tool, request: Request, rounds: seq<Round>): Outcome {
    tool(Before(request, rounds), Resent(request, rounds))
  }

  /** A round that may follow `rounds`: the input request the last request was met by, and the answers to that. */
  ghost predicate Follows(tool: Tool, client: Client, request: Request, rounds: seq<Round>, round: Round) {
    && Reply(tool, request, rounds) == Ok(InputRequired(round.pending))
    && AnswersTo(client, Sent(request, rounds), Asks(round.pending), round.answers)
  }

  /** A conversation so far: every round followed from those before it. */
  ghost predicate Handshake(tool: Tool, client: Client, request: Request, rounds: seq<Round>) {
    rounds != [] ==>
      var last := |rounds| - 1;
      && Handshake(tool, client, request, rounds[..last])
      && Follows(tool, client, request, rounds[..last], rounds[last])
  }

  /** The client could not be got to answer all of `requests`, and `outcome` says why. */
  ghost predicate Unanswered(client: Client, past: Past, requests: Requests, outcome: Outcome) {
    outcome.Err? && exists k | 0 <= k < |requests| :: FirstTrouble(client, past, requests, k, outcome.error)
  }

  lemma UnansweredIsDetermined(client: Client, past: Past, requests: Requests, x: Outcome, y: Outcome)
    requires Unanswered(client, past, requests, x) && Unanswered(client, past, requests, y)
    ensures x == y
  {
    var j :| 0 <= j < |requests| && FirstTrouble(client, past, requests, j, x.error);
    var k :| 0 <= k < |requests| && FirstTrouble(client, past, requests, k, y.error);
    assert j == k;
  }

  lemma AnsweredOrNot(client: Client, past: Past, requests: Requests, answers: Fields, outcome: Outcome)
    requires AnswersTo(client, past, requests, answers)
    ensures !Unanswered(client, past, requests, outcome)
  {
  }

  /** How a conversation ends after `rounds`, for a client that answers as often as it is asked. */
  ghost predicate EndsWith(tool: Tool, client: Client, request: Request, rounds: seq<Round>, outcome: Outcome) {
    match Reply(tool, request, rounds)
    case Ok(InputRequired(pending)) => Unanswered(client, Sent(request, rounds), Asks(pending), outcome)
    case reply => outcome == reply
  }

  /** How the call made on a legacy client's behalf ends: the same, unless eight dispatches were not enough. */
  ghost predicate CallEndsWith(tool: Tool, client: Client, request: Request, rounds: seq<Round>, outcome: Outcome) {
    if |rounds| == MAX_ELICITATION_ROUNDS then outcome == Err(AskedTooOften(request.name))
    else EndsWith(tool, client, request, rounds, outcome)
  }

  /** One more round of a conversation, and what has been sent before the next request. */
  lemma RoundMore(tool: Tool, client: Client, request: Request, rounds: seq<Round>, more: Round)
    requires Handshake(tool, client, request, rounds) && Follows(tool, client, request, rounds, more)
    ensures Handshake(tool, client, request, rounds + [more])
    ensures Before(request, rounds + [more]) == Sent(request, rounds)
  {
    assert (rounds + [more])[..|rounds|] == rounds;
  }

  /** What is sent next: the last answers merged over those before, under the last state. */
  lemma ResentMore(request: Request, rounds: seq<Round>, more: Round)
    ensures Resent(request, rounds + [more]) == Amended(Resent(request, rounds), more.pending, more.answers)
  {
    assert (rounds + [more])[..|rounds|] == rounds;
  }

  /** A request with answers merged into it, under the state it was handed. */
  function Amended(request: Request, pending: Pending, answers: Fields): Request {
    request.(responses := Some(request.responses.UnwrapOr(map[]) + answers), state := pending.state)
  }

  /** Every dispatch of a call carries the name and arguments it began with. */
  ghost predicate Replays(request: Request, sent: seq<Request>) {
    forall k | 0 <= k < |sent| :: sent[k].name == request.name && sent[k].arguments == request.arguments
  }

  /** One round on the client's behalf: its answers, and the request they make. */
  method AskClient(tool: Tool, client: Client, request: Request, sent: Past, pending: Pending,
                   ghost original: Request, ghost rounds: seq<Round>)
    returns (asking: Result<Request, Error>, ghost more: Round)
    requires Handshake(tool, client, original, rounds)
    requires request == Resent(original, rounds) && sent == Sent(original, rounds)
    requires Reply(tool, original, rounds) == Ok(InputRequired(pending))
    ensures asking.Err? ==> Unanswered(client, sent, Asks(pending), Err(asking.error))
    ensures asking.Ok? ==>
      && Handshake(tool, client, original, rounds + [more])
      && asking.value == Resent(original, rounds + [more]) && sent == Before(original, rounds + [more])
      && asking.value.name == request.name && asking.value.arguments == request.arguments
  {
    var fulfilled, asked := Fulfil(client, sent, Asks(pending));
    more := Round(pending, map[]);
    if fulfilled.Err? { return Err(fulfilled.error), more; }
    more := Round(pending, fulfilled.value);
    RoundMore(tool, client, original, rounds, more);
    ResentMore(original, rounds, more);
    asking := Ok(Amended(request, pending, fulfilled.value));
  }

  /**
   `call_tool`. A client that can be sent an input request gets the reply to its one dispatch.
   For one that cannot, the call is the handshake such a client would have gone through, request
   by request and answer by answer, for at most eight dispatches; it never ends in an input
   request. `sent` is what was dispatched and `rounds` the conversation.
   */
  method CallTool(tool: Tool, client: Client, legacy: bool, original: Request)
    returns (outcome: Outcome, sent: seq<Request>, ghost rounds: seq<Round>)
    ensures 1 <= |sent| <= MAX_ELICITATION_ROUNDS && Replays(original, sent)
    ensures !legacy ==> sent == [original] && outcome == tool([], original)
    ensures legacy ==> Handshake(tool, client, original, rounds) && CallEndsWith(tool, client, original, rounds, outcome)
    ensures legacy ==> |rounds| <= MAX_ELICITATION_ROUNDS
    ensures legacy ==>
      sent == if |rounds| < MAX_ELICITATION_ROUNDS then Sent(original, rounds) else Before(original, rounds)
    ensures legacy && outcome.Ok? ==> !outcome.value.InputRequired?
  {
    var request := original;
    sent, rounds := [], [];
    for round := 0 to MAX_ELICITATION_ROUNDS
      invariant |rounds| == round && (!legacy ==> round == 0)
      invariant request == Resent(original, rounds) && sent == Before(original, rounds)
      invariant Handshake(tool, client, original, rounds) && Replays(original, sent)
    {
      var reply := tool(sent, request);
      sent := sent + [request];
      if !legacy || reply.Err? || !reply.value.InputRequired? { return reply, sent, rounds; }
      var asking, more := AskClient(tool, client, request, sent, reply.value.pending, original, rounds);
      if asking.Err? { return Err(asking.error), sent, rounds; }
      request := asking.value;
      rounds := rounds + [more];
    }
    outcome := Err(AskedTooOften(request.name));
  }

  /** A dispatch carries every answer given before it, the last one under each id. */
  lemma {:induction false} AnswersAreKept(given: Fields, rounds: seq<Round>, j: nat, id: string)
    requires j < |rounds| && id in rounds[j].answers
    requires forall k | j < k < |rounds| :: id !in rounds[k].answers
    ensures id in Accumulated(given, rounds) && Accumulated(given, rounds)[id] == rounds[j].answers[id]
    decreases |rounds|
  {
    if j < |rounds| - 1 {
      assert id !in rounds[|rounds| - 1].answers;
      AnswersAreKept(given, rounds[..|rounds| - 1], j, id);
    }
  }

  /**
   The conversation and its end are fixed by the tool and the client. So a legacy client's call
   (`called`, ending in `x`) goes as the handshake of a client that speaks it (`spoken`, ending in
   `y`) as far as eight rounds, and ends as it did exactly when that took fewer than eight.
   */
  lemma HandshakesAgree(tool: Tool, client: Client, request: Request, called: seq<Round>, spoken: seq<Round>,
                        x: Outcome, y: Outcome)
    requires Handshake(tool, client, request, called) && Handshake(tool, client, request, spoken)
    requires |called| <= MAX_ELICITATION_ROUNDS
    requires CallEndsWith(tool, client, request, called, x) && EndsWith(tool, client, request, spoken, y)
    ensures called == if |spoken| < MAX_ELICITATION_ROUNDS then spoken else spoken[..MAX_ELICITATION_ROUNDS]
    ensures x == if |spoken| < MAX_ELICITATION_ROUNDS then y else Err(AskedTooOften(request.name))
  {
    EndedMeansEnded(tool, client, request, spoken, called, y);
    RoundsAgree(tool, client, request, called, spoken, |called|);
    assert called[..|called|] == called;
    if |called| < MAX_ELICITATION_ROUNDS {
      EndedMeansEnded(tool, client, request, called, spoken, x);
      assert spoken[..|called|] == spoken;
      EndIsDetermined(tool, client, request, called, x, y);
    }
  }

  /** A conversation that has ended cannot be carried on. */
  lemma EndedMeansEnded(tool: Tool, client: Client, request: Request, a: seq<Round>, b: seq<Round>, x: Outcome)
    requires Handshake(tool, client, request, a) && Handshake(tool, client, request, b)
    requires EndsWith(tool, client, request, a, x)
    ensures |b| <= |a|
  {
    if |a| < |b| {
      RoundsAgree(tool, client, request, a, b, |a|);
      assert a[..|a|] == a;
      FollowsAt(tool, client, request, b, |a|);
      var round := b[|a|];
      AnsweredOrNot(client, Sent(request, a), Asks(round.pending), round.answers, x);
    }
  }

  lemma EndIsDetermined(tool: Tool, client: Client, request: Request, rounds: seq<Round>, x: Outcome, y: Outcome)
    requires EndsWith(tool, client, request, rounds, x) && EndsWith(tool, client, request, rounds, y)
    ensures x == y
  {
    match Reply(tool, request, rounds)
    case Ok(InputRequired(pending)) => UnansweredIsDetermined(client, Sent(request, rounds), Asks(pending), x, y);
    case _ =>
  }

  lemma Shortened<T>(s: seq<T>, last: nat, n: nat)
    requires n <= last <= |s|
    ensures s[..last][..n] == s[..n]
  {
  }

  /** A conversation up to any of its rounds is one. */
  lemma {:induction false} HandshakeUpTo(tool: Tool, client: Client, request: Request, rounds: seq<Round>, n: nat)
    requires Handshake(tool, client, request, rounds) && n <= |rounds|
    ensures Handshake(tool, client, request, rounds[..n])
    decreases |rounds|
  {
    if n < |rounds| {
      var last := |rounds| - 1;
      HandshakeUpTo(tool, client, request, rounds[..last], n);
      Shortened(rounds, last, n);
    } else {
      assert rounds[..n] == rounds;
    }
  }

  /** Every round of a conversation followed from those before it. */
  lemma FollowsAt(tool: Tool, client: Client, request: Request, rounds: seq<Round>, n: nat)
    requires Handshake(tool, client, request, rounds) && n < |rounds|
    ensures Handshake(tool, client, request, rounds[..n]) && Follows(tool, client, request, rounds[..n], rounds[n])
  {
    HandshakeUpTo(tool, client, request, rounds, n + 1);
    Shortened(rounds, n + 1, n);
    assert rounds[..n + 1][n] == rounds[n];
  }

  lemma OneFurther<T>(a: seq<T>, b: seq<T>, n: nat)
    requires n < |a| && n < |b| && a[..n] == b[..n] && a[n] == b[n]
    ensures a[..n + 1] == b[..n + 1]
  {
    assert a[..n + 1] == a[..n] + [a[n]];
    assert b[..n + 1] == b[..n] + [b[n]];
  }

  /** Two conversations agree as far as both go. */
  lemma {:induction false} RoundsAgree(tool: Tool, client: Client, request: Request, a: seq<Round>, b: seq<Round>, n: nat)
    requires Handshake(tool, client, request, a) && Handshake(tool, client, request, b) && n <= |a| && n <= |b|
    ensures a[..n] == b[..n]
    decreases n
  {
    if n > 0 {
      RoundsAgree(tool, client, request, a, b, n - 1);
      FollowsAt(tool, client, request, a, n - 1);
      FollowsAt(tool, client, request, b, n - 1);
      RoundAgrees(tool, client, request, a[..n - 1], a[n - 1], b[n - 1]);
      OneFurther(a, b, n - 1);
    }
  }

  lemma RoundAgrees(tool: Tool, client: Client, request: Request, rounds: seq<Round>, a: Round, b: Round)
    requires Follows(tool, client, request, rounds, a) && Follows(tool, client, request, rounds, b)
    ensures a == b
  {
    AnswersAreDetermined(client, Sent(request, rounds), Asks(a.pending), a.answers, b.answers);
  }

  // ---------------------------------------------------------------- tools that ask too often, and hosted ones

  /** A tool that sends its state back `n` times before it answers. */
  function Stalling(n: nat, result: CallResult): Tool {
    (past, request) =>
      if |past| < n then Ok(InputRequired(Pending(None, Some("wait")))) else Ok(Complete(result))
  }

  function Waits(n: nat): (rounds: seq<Round>)
    ensures |rounds| == n
  {
    if n == 0 then [] else Waits(n - 1) + [Round(Pending(None, Some("wait")), map[])]
  }

  lemma {:induction false} Waited(client: Client, request: Request, result: CallResult, n: nat, k: nat)
    requires k <= n
    ensures Handshake(Stalling(n, result), client, request, Waits(k))
  {
    if k > 0 {
      Waited(client, request, result, n, k - 1);
      RoundMore(Stalling(n, result), client, request, Waits(k - 1), Round(Pending(None, Some("wait")), map[]));
    }
  }

  /**
   The limit is the legacy client's alone: a tool that stalls eight rounds or more answers a
   client that speaks the handshake, and asked too often for one that does not.
   */
  lemma StallingToolsAnswer(client: Client, request: Request, result: CallResult, n: nat)
    ensures var tool := Stalling(n, result);
      && Handshake(tool, client, request, Waits(n))
      && EndsWith(tool, client, request, Waits(n), Ok(Complete(result)))
      && (n >= MAX_ELICITATION_ROUNDS ==>
            var rounds := Waits(MAX_ELICITATION_ROUNDS);
            && Handshake(tool, client, request, rounds)
            && CallEndsWith(tool, client, request, rounds, Err(AskedTooOften(request.name))))
  {
    Waited(client, request, result, n, n);
    if n >= MAX_ELICITATION_ROUNDS { Waited(client, request, result, n, MAX_ELICITATION_ROUNDS); }
  }

  /**
   Of a hosted tool, interceptors and all: every round was asked for by its handler, on the
   request of that round, and no interceptor made one up.
   */
  lemma RoundsAreTheHandlers(h: Hosting, client: Client, request: Request, rounds: seq<Round>, n: nat)
    requires Handshake(AsTool(h), client, request, rounds) && n < |rounds|
    ensures var past, resent := Before(request, rounds[..n]), Resent(request, rounds[..n]);
      && Handled(h, past, resent) == Some(Ok(InputRequired(rounds[n].pending)))
      && Chained(h, past, resent).Ok?
  {
    FollowsAt(AsTool(h), client, request, rounds, n);
    OnlyTheHandlerAsks(h, Before(request, rounds[..n]), Resent(request, rounds[..n]), rounds[n].pending);
  }

  /** A call not asked too often ends in the dispatch of its last request, or in what kept it from the next. */
  lemma CallsEndInADispatch(h: Hosting, client: Client, request: Request, rounds: seq<Round>, outcome: Outcome)
    requires |rounds| < MAX_ELICITATION_ROUNDS && CallEndsWith(AsTool(h), client, request, rounds, outcome)
    ensures var past, resent := Before(request, rounds), Resent(request, rounds);
      if exists pending :: Handled(h, past, resent) == Some(Ok(InputRequired(pending))) && Chained(h, past, resent).Ok?
      then Unanswered(client, Sent(request, rounds), Asks(Handled(h, past, resent).value.value.pending), outcome)
      else outcome == Dispatch(h, past, resent)
  {
    var past, resent := Before(request, rounds), Resent(request, rounds);
    var reply := Dispatch(h, past, resent);
    if reply.Ok? && reply.value.InputRequired? {
      OnlyTheHandlerAsks(h, past, resent, reply.value.pending);
    } else if pending :| Handled(h, past, resent) == Some(Ok(InputRequired(pending))) && Chained(h, past, resent).Ok? {
      OnlyTheHandlerAsks(h, past, resent, pending);
    }
  }
}
