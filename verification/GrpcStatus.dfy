/**
 How a gRPC stream says it ended: statuses, the trailers that carry them, and the rule that
 decides which trailers a caller receives once an interceptor chain has spoken.
 */
module GrpcStatus {
  import opened Results

  datatype Code =
    | OK
    | CANCELLED
    | UNKNOWN
    | INVALID_ARGUMENT
    | DEADLINE_EXCEEDED
    | NOT_FOUND
    | ALREADY_EXISTS
    | PERMISSION_DENIED
    | RESOURCE_EXHAUSTED
    | FAILED_PRECONDITION
    | ABORTED
    | OUT_OF_RANGE
    | UNIMPLEMENTED
    | INTERNAL
    | UNAVAILABLE
    | DATA_LOSS
    | UNAUTHENTICATED

  datatype Status = Status(code: Code, message: string, metadata: map<string, string>)

  /** How a stream ended, or how an interceptor says it did. */
  type Outcome = Result<(), Status>

  /**
   A header map, split the way a status is read from it: `status` is the code the status
   header decodes to, if the header is there at all.
   */
  datatype Headers = Headers(status: Option<Code>, message: string, others: map<string, string>) {
    predicate IsEmpty() {
      status.None? && message == "" && others == map[]
    }
  }

  const NO_HEADERS := Headers(None, "", map[])
  const CONTENT_TYPE := "content-type"
  const GRPC_CONTENT_TYPE := "application/grpc"
  const CALLER_WENT_AWAY := Status(CANCELLED, "the caller went away", map[])

  /** Metadata a status may not carry onto the wire, because the transport owns it. */
  const RESERVED := {"te", "user-agent", CONTENT_TYPE, "grpc-message", "grpc-message-type", "grpc-status"}

  function CodeOf(outcome: Outcome): Code {
    match outcome
    case Ok(_) => OK
    case Err(status) => status.code
  }

  /** The code a client reads off a header map: a missing status is success. */
  function CodeRead(headers: Headers): Code {
    headers.status.UnwrapOr(OK)
  }

  /** The status a header map carries. */
  function StatusOf(headers: Headers): Option<Status> {
    match headers.status
    case None => None
    case Some(code) => Some(Status(code, headers.message, headers.others))
  }

  /** A status as the head of a whole response. */
  function Rendered(outcome: Outcome): Headers {
    var status := match outcome case Ok(_) => Status(OK, "", map[]) case Err(s) => s;
    Headers(Some(status.code), status.message, (status.metadata - RESERVED)[CONTENT_TYPE := GRPC_CONTENT_TYPE])
  }

  /** What a stream's trailers say about how it ended. */
  function TrailerOutcome(trailers: Headers): Outcome {
    match StatusOf(trailers)
    case Some(status) => if status.code != OK then Err(status) else Ok(())
    case None => Ok(())
  }

  /** Whether the chain left the service's word standing. No verdict means its task died. */
  predicate Unchanged(service: Outcome, verdict: Option<Outcome>) {
    match verdict
    case None => true
    case Some(Ok(_)) => service.Ok?
    case Some(Err(chain)) => service.Err? && service.error.code == chain.code
  }

  /** The trailers a verdict makes when it makes its own. */
  function Rewritten(verdict: Outcome): Headers {
    var head := Rendered(verdict);
    head.(others := head.others - {CONTENT_TYPE})
  }

  /** The trailers the caller receives: the service's own unless the chain changed the outcome. */
  function Settle(trailers: Headers, service: Outcome, verdict: Option<Outcome>): Headers {
    if Unchanged(service, verdict) then trailers
    else Rewritten(verdict.UnwrapOr(Ok(())))
  }

  /** Reading trailers as an outcome loses nothing of the code. */
  lemma TrailerOutcomeCode(trailers: Headers)
    ensures CodeOf(TrailerOutcome(trailers)) == CodeRead(trailers)
    ensures TrailerOutcome(trailers).Err? ==> TrailerOutcome(trailers).error.code != OK
  {
  }

  /**
   The code the caller reads is the verdict's, whatever the service said; and the service's
   own when no verdict came.
   */
  lemma SettledCode(trailers: Headers, verdict: Option<Outcome>)
    ensures CodeRead(Settle(trailers, TrailerOutcome(trailers), verdict))
         == if verdict.Some? then CodeOf(verdict.value) else CodeRead(trailers)
  {
    TrailerOutcomeCode(trailers);
  }

  /** Rewritten trailers always say something, and never say what kind of body they follow. */
  lemma RewrittenTrailersStandAlone(trailers: Headers, service: Outcome, verdict: Option<Outcome>)
    requires !Unchanged(service, verdict)
    ensures var settled := Settle(trailers, service, verdict);
      && settled.status == Some(CodeOf(verdict.value))
      && !settled.IsEmpty()
      && settled.others.Keys !! RESERVED
  {
  }

  /**
   Exactly when the caller receives the service's own trailers: no verdict came; or the codes
   agree, and no success is being replaced by an error that carries the success code; or the
   rewritten trailers happen to be the very ones given.
   */
  lemma TrailersSurviveExactly(trailers: Headers, verdict: Option<Outcome>)
    ensures Settle(trailers, TrailerOutcome(trailers), verdict) == trailers
       <==> || verdict.None?
            || (CodeOf(verdict.value) == CodeRead(trailers) && !(verdict.value.Err? && verdict.value.error.code == OK))
            || trailers == Rewritten(verdict.value)
  {
    TrailerOutcomeCode(trailers);
  }

  /** And otherwise it receives the verdict's. */
  lemma OwnOrRewritten(trailers: Headers, verdict: Outcome)
    ensures var settled := Settle(trailers, TrailerOutcome(trailers), Some(verdict));
      settled == trailers || settled == Rewritten(verdict)
  {
  }

  /** An error carrying the success code costs the service its trailers although no code changed. */
  lemma SuccessCodedErrorRewrites()
    ensures exists trailers: Headers, verdict: Outcome ::
      && CodeOf(verdict) == CodeRead(trailers)
      && Settle(trailers, TrailerOutcome(trailers), Some(verdict)) != trailers
  {
    var trailers := Headers(Some(OK), "", map["x-kept" := "yes"]);
    var verdict: Outcome := Err(Status(OK, "", map[]));
    var settled := Settle(trailers, TrailerOutcome(trailers), Some(verdict));
    assert "x-kept" in trailers.others && "x-kept" !in settled.others;
    assert settled != trailers;
    assert CodeOf(verdict) == CodeRead(trailers);
  }
}
