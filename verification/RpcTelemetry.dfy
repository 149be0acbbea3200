/**
 What telemetry says of an RPC: one record per call with the status it ended on and the bytes
 that had passed by then, and one request counted for every call that ended.
 */
module RpcTelemetry {
  import opened Results
  import opened ByteStrings
  import opened GrpcStatus
  import opened WatchedBody
  import StreamProtocol

  /** What happens to a call, in the order it happens. */
  datatype Event =
    | RequestFrame(frame: BodyPoll)      // the service polls the request body
    | Responded(head: Headers)           // the service's response head
    | ResponseFrame(frame: BodyPoll)     // the transport polls the response body
    | Dropped                            // the call is let go of

  /** The status an event ends a call with, if it ends one. */
  function Ending(e: Event): Option<Code> {
    match e
    case RequestFrame(_) => None
    case Responded(head) => head.status
    case ResponseFrame(Trailers(trailers)) => Some(trailers.status.UnwrapOr(UNKNOWN))
    case ResponseFrame(Broke(status)) => Some(status.code)
    case ResponseFrame(End) => Some(UNKNOWN)
    case ResponseFrame(_) => None
    case Dropped => Some(CANCELLED)
  }

  function BytesIn(frame: BodyPoll): Bytes {
    if frame.Data? then frame.bytes else []
  }

  /** Everything the caller sent, as far as it was read. */
  function Sent(history: seq<Event>): Bytes {
    if history == [] then []
    else Sent(history[..|history| - 1]) + match history[|history| - 1] case RequestFrame(f) => BytesIn(f) case _ => []
  }

  /** Everything the caller was sent. */
  function Served(history: seq<Event>): Bytes {
    if history == [] then []
    else Served(history[..|history| - 1]) + match history[|history| - 1] case ResponseFrame(f) => BytesIn(f) case _ => []
  }

  /** What is recorded of a call: its status, and the bytes out and in. */
  datatype Record = Record(code: Code, sent: nat, received: nat)

  /** What has been recorded after `history`. */
  function Recorded(history: seq<Event>): seq<Record> {
    if history == [] then []
    else
      var before := history[..|history| - 1];
      var ending := Ending(history[|history| - 1]);
      if Recorded(before) != [] || ending.None? then Recorded(before)
      else [Record(ending.value, |Served(before)|, |Sent(before)|)]
  }

  /** `k` is where a call ends. */
  ghost predicate EndsAt(history: seq<Event>, k: nat) {
    && k < |history| && Ending(history[k]).Some?
    && forall j | 0 <= j < k :: Ending(history[j]).None?
  }

  /** Nothing is recorded of a call until it ends, and never more than one record. */
  lemma {:induction false} RecordedOnceEnded(history: seq<Event>)
    ensures |Recorded(history)| <= 1
    ensures Recorded(history) == [] <==> forall k | 0 <= k < |history| :: Ending(history[k]).None?
    decreases |history|
  {
    if history != [] {
      var last := |history| - 1;
      RecordedOnceEnded(history[..last]);
      if Recorded(history) == [] {
        forall k | 0 <= k < |history| ensures Ending(history[k]).None? {
          if k < last { assert history[..last][k] == history[k]; }
        }
      } else if Ending(history[last]).None? {
        var k :| 0 <= k < last && Ending(history[..last][k]).Some?;
        assert history[..last][k] == history[k];
      }
    }
  }

  /** What is recorded is where the call first ended, with the bytes that had passed before that. */
  lemma {:induction false} RecordedExactly(history: seq<Event>, k: nat)
    requires EndsAt(history, k)
    ensures Recorded(history) == [Record(Ending(history[k]).value, |Served(history[..k])|, |Sent(history[..k])|)]
    decreases |history|
  {
    var last := |history| - 1;
    var before := history[..last];
    if k < last {
      assert before[..k] == history[..k];
      RecordedExactly(before, k);
    } else {
      RecordedOnceEnded(before);
      assert forall j | 0 <= j < last :: before[j] == history[j];
    }
  }

  lemma {:induction false} FirstEnding(history: seq<Event>, n: nat) returns (k: nat)
    requires n < |history| && Ending(history[n]).Some?
    ensures k <= n && EndsAt(history, k)
    decreases n
  {
    k := n;
    if j :| 0 <= j < n && Ending(history[j]).Some? { k := FirstEnding(history, j); }
  }

  /** Every call is dropped in the end, and so every call is recorded exactly once, however its polls went. */
  lemma EveryCallIsRecordedOnce(history: seq<Event>) returns (k: nat)
    requires Dropped in history
    ensures EndsAt(history, k)
    ensures Recorded(history) == [Record(Ending(history[k]).value, |Served(history[..k])|, |Sent(history[..k])|)]
  {
    var n :| 0 <= n < |history| && history[n] == Dropped;
    k := FirstEnding(history, n);
    RecordedExactly(history, k);
  }

  // ---------------------------------------------------------------- one call

  /** The bytes counted off the request body, shared between the body and the call. */
  class Received {
    var bytes: nat
    /** Everything that has happened to the call. */
    ghost var history: seq<Event>

    constructor ()
      ensures bytes == 0 && history == []
    {
      bytes, history := 0, [];
    }
  }

  lemma OneMore(history: seq<Event>, e: Event)
    ensures Sent(history + [e]) == Sent(history) + match e case RequestFrame(f) => BytesIn(f) case _ => []
    ensures Served(history + [e]) == Served(history) + match e case ResponseFrame(f) => BytesIn(f) case _ => []
    ensures Recorded(history + [e]) ==
            if Recorded(history) != [] || Ending(e).None? then Recorded(history)
            else [Record(Ending(e).value, |Served(history)|, |Sent(history)|)]
  {
    assert (history + [e])[..|history|] == history;
  }

  /** The request body as the service reads it. */
  class CountedRequest {
    const received: Received

    constructor (received: Received)
      ensures this.received == received
    {
      this.received := received;
    }

    /** `CountedRequest::poll_frame`: the frame goes through as it is. */
    method PollFrame(inner: BodyPoll) returns (frame: BodyPoll)
      requires received.bytes == |Sent(received.history)|
      modifies received
      ensures frame == inner
      ensures received.history == old(received.history) + [RequestFrame(inner)]
      ensures received.bytes == |Sent(received.history)|
    {
      frame := inner;
      if frame.Data? { received.bytes := received.bytes + |frame.bytes|; }
      OneMore(received.history, RequestFrame(inner));
      received.history := received.history + [RequestFrame(inner)];
    }
  }

  /** A call in flight. */
  class Call {
    const received: Received
    var sent: nat
    var finished: bool
    /** What the instruments have been told. */
    ghost var records: seq<Record>

    ghost predicate Valid()
      reads this, received
    {
      && received.bytes == |Sent(received.history)|
      && sent == |Served(received.history)|
      && records == Recorded(received.history)
      && (finished <==> records != [])
    }

    /** A call begins before its response does; of the request some may have been read by then. */
    constructor (received: Received)
      requires received.bytes == |Sent(received.history)|
      requires forall e | e in received.history :: e.RequestFrame?
      ensures Valid() && this.received == received && !finished
    {
      this.received, sent, finished, records := received, 0, false, [];
      OnlyRequested(received.history);
    }

    /** `finish`: only the first one says anything. */
    method Finish(code: Code)
      modifies this`finished, this`records
      ensures finished
      ensures records == if old(finished) then old(records) else [Record(code, sent, received.bytes)]
    {
      if finished { return; }
      finished, records := true, [Record(code, sent, received.bytes)];
    }

    /** The response head: one that carries a status has already ended the call. */
    method Respond(head: Headers) returns (measured: bool)
      requires Valid()
      modifies this, received
      ensures Valid() && received.history == old(received.history) + [Responded(head)]
      ensures measured <==> head.status.None?
    {
      OneMore(received.history, Responded(head));
      measured := head.status.None?;
      if !measured { Finish(head.status.value); }
      received.history := received.history + [Responded(head)];
    }

    /** `MeasuredResponse::poll_frame`: the frame goes through as it is. */
    method PollFrame(inner: BodyPoll) returns (frame: BodyPoll)
      requires Valid()
      modifies this, received
      ensures Valid() && frame == inner && received.history == old(received.history) + [ResponseFrame(inner)]
    {
      OneMore(received.history, ResponseFrame(inner));
      frame := inner;
      match frame {
        case Pending =>
        case Data(bytes) => sent := sent + |bytes|;
        case Trailers(trailers) => Finish(trailers.status.UnwrapOr(UNKNOWN));
        case Broke(status) => Finish(status.code);
        case End => Finish(UNKNOWN);
      }
      received.history := received.history + [ResponseFrame(inner)];
    }

    /** `Drop`: a call nobody finished was cancelled. After it there is exactly one record. */
    method Drop()
      requires Valid()
      modifies this, received
      ensures Valid() && received.history == old(received.history) + [Dropped] && |records| == 1
    {
      OneMore(received.history, Dropped);
      Finish(CANCELLED);
      received.history := received.history + [Dropped];
      RecordedOnceEnded(received.history);
      assert received.history[|received.history| - 1] == Dropped;
    }
  }

  lemma {:induction false} OnlyRequested(history: seq<Event>)
    requires forall e | e in history :: e.RequestFrame?
    ensures Served(history) == [] && Recorded(history) == []
    decreases |history|
  {
    if history != [] {
      OnlyRequested(history[..|history| - 1]);
      assert history[|history| - 1] in history;
    }
  }

  /** Reading the request is nothing to what is recorded or counted of the response. */
  lemma RequestFramesKeepTheCall(history: seq<Event>, frame: BodyPoll)
    ensures Recorded(history + [RequestFrame(frame)]) == Recorded(history)
    ensures Served(history + [RequestFrame(frame)]) == Served(history)
  {
    OneMore(history, RequestFrame(frame));
  }

  /** The service reads its request while the call it belongs to is in flight: the call stays as it was. */
  method ReadRequest(request: CountedRequest, call: Call, inner: BodyPoll) returns (frame: BodyPoll)
    requires call.Valid() && request.received == call.received
    modifies call.received
    ensures call.Valid() && frame == inner
    ensures call.sent == old(call.sent) && call.finished == old(call.finished) && call.records == old(call.records)
    ensures call.received.history == old(call.received.history) + [RequestFrame(inner)]
    ensures call.received.bytes == old(call.received.bytes) + |BytesIn(inner)|
  {
    RequestFramesKeepTheCall(call.received.history, inner);
    OneMore(call.received.history, RequestFrame(inner));
    frame := request.PollFrame(inner);
  }

  /** What a settled stream's last frame is: its trailers, or a bare end when they say nothing at all. */
  function LastFrame(settled: Headers): BodyPoll {
    if settled.IsEmpty() then End else Trailers(settled)
  }

  /** What a body may close with, and whether that states how it ended. */
  predicate Closes(item: BodyPoll) {
    item.Trailers? || item.Broke? || item.End?
  }

  predicate Stated(closing: BodyPoll) {
    closing.Broke? || (closing.Trailers? && closing.trailers.status.Some?)
  }

  /** Nothing in `history` ends a call. */
  ghost predicate Quiet(history: seq<Event>) {
    forall k | 0 <= k < |history| :: Ending(history[k]).None?
  }

  /** A call from its beginning: the request read, the head, the body up to what closes it, and whatever comes after. */
  function Answered(before: seq<Event>, head: Headers, between: seq<Event>, closing: BodyPoll, after: seq<Event>)
    : (history: seq<Event>)
  {
    before + [Responded(head)] + between + [ResponseFrame(closing)] + after
  }

  /** Where such a call ends: at its head, when that carries a status, and otherwise at what closes it. */
  lemma AnsweredEnds(before: seq<Event>, head: Headers, between: seq<Event>, closing: BodyPoll, after: seq<Event>)
    requires Quiet(before) && Quiet(between) && Closes(closing)
    ensures EndsAt(Answered(before, head, between, closing, after),
                   if head.status.Some? then |before| else |before| + 1 + |between|)
  {
    var history := Answered(before, head, between, closing, after);
    var n := |before| + 1 + |between|;
    assert history[|before|] == Responded(head) && history[n] == ResponseFrame(closing);
    assert forall k | 0 <= k < |before| :: history[k] == before[k];
    assert forall k | |before| < k < n :: history[k] == between[k - |before| - 1];
  }

  /**
   Telemetry records the code the caller reads off what closes the stream exactly when the head
   carries no status and what closes it states one, or the head carries that very code. A head
   that carries any status, success included, has been recorded before the body was read; and a
   stream that closes with no status is read as success and recorded as UNKNOWN.
   */
  lemma RecordedAsReadExactly(before: seq<Event>, head: Headers, between: seq<Event>, closing: BodyPoll, after: seq<Event>)
    requires Quiet(before) && Quiet(between) && Closes(closing)
    ensures var recorded := Recorded(Answered(before, head, between, closing, after));
      && |recorded| == 1
      && (recorded[0].code == ClosingCode(closing)
          <==> (head.status.None? && Stated(closing)) || head.status == Some(ClosingCode(closing)))
  {
    AnsweredEnds(before, head, between, closing, after);
    RecordedExactly(Answered(before, head, between, closing, after),
                    if head.status.Some? then |before| else |before| + 1 + |between|);
    var history := Answered(before, head, between, closing, after);
    assert history[|before|] == Responded(head) && history[|before| + 1 + |between|] == ResponseFrame(closing);
  }

  /**
   The same for an intercepted stream, in what the service and the chain said: of a stream whose
   head carries no status, the code read is recorded unless the service's trailers carry none
   and the chain left its success standing.
   */
  lemma SettledIsRecordedExactly(before: seq<Event>, head: Headers, between: seq<Event>, trailers: Headers,
                                 verdict: Option<Outcome>, after: seq<Event>)
    requires Quiet(before) && Quiet(between)
    ensures var settled := Settle(trailers, TrailerOutcome(trailers), verdict);
      var recorded := Recorded(Answered(before, head, between, LastFrame(settled), after));
      && |recorded| == 1
      && (recorded[0].code == CodeRead(settled)
          <==> if head.status.Some?
               then head.status.value == (if verdict.Some? then CodeOf(verdict.value) else CodeRead(trailers))
               else trailers.status.Some? || (verdict.Some? && verdict.value.Err?))
  {
    TrailerOutcomeCode(trailers);
    SettledCode(trailers, verdict);
    RecordedAsReadExactly(before, head, between, LastFrame(Settle(trailers, TrailerOutcome(trailers), verdict)), after);
  }

  /** What the transport polls of a body, as the telemetry around it sees that. */
  function Polls(read: seq<BodyPoll>): (history: seq<Event>)
    ensures |history| == |read| && forall k | 0 <= k < |read| :: history[k] == ResponseFrame(read[k])
  {
    if read == [] then [] else Polls(read[..|read| - 1]) + [ResponseFrame(read[|read| - 1])]
  }

  /**
   And over every run of an intercepted call: of a stream read past its data, the code recorded
   is the one its closing item carries exactly under that condition.
   */
  lemma StreamsAreRecordedAsReadExactly(budget: nat, labels: seq<StreamProtocol.Label>, head: Headers)
    requires StreamProtocol.Reached(budget, labels).Some?
    requires var t := StreamProtocol.Reached(budget, labels).value;
      t.caller == StreamProtocol.CallerState.Answered(StreamProtocol.Streaming(head)) && |t.read| > |t.produced|
    ensures var t := StreamProtocol.Reached(budget, labels).value;
      var closing := t.read[|t.produced|];
      var recorded := Recorded([Responded(head)] + Polls(t.read) + [Dropped]);
      && |recorded| == 1
      && (recorded[0].code == ClosingCode(closing)
          <==> (head.status.None? && Stated(closing)) || head.status == Some(ClosingCode(closing)))
  {
    StreamProtocol.CallerReadsTheServicesData(budget, labels);
    var t := StreamProtocol.Reached(budget, labels).value;
    var n := |t.produced|;
    StreamProtocol.ClosesWhenRead(budget, labels);
    var between, after := Polls(t.read)[..n], Polls(t.read)[n + 1..] + [Dropped];
    RecordedAsReadExactly([], head, between, t.read[n], after);
    assert [Responded(head)] + Polls(t.read) + [Dropped] == Answered([], head, between, t.read[n], after);
  }

  /** A stream that ends on trailers without a status: read as success, recorded as UNKNOWN. */
  lemma UnstatedEndsDiffer()
    ensures var trailers := Headers(None, "", map["x-cost" := "3"]);
      var settled := Settle(trailers, TrailerOutcome(trailers), Some(Ok(())));
      && LastFrame(settled) == Trailers(trailers) && CodeRead(trailers) == OK
      && Recorded([Responded(NO_HEADERS), ResponseFrame(LastFrame(settled)), Dropped]) == [Record(UNKNOWN, 0, 0)]
  {
    var trailers := Headers(None, "", map["x-cost" := "3"]);
    assert "x-cost" in trailers.others;
    var history := [Responded(NO_HEADERS), ResponseFrame(Trailers(trailers)), Dropped];
    assert EndsAt(history, 1);
    RecordedExactly(history, 1);
    assert history[..1] == [] + [Responded(NO_HEADERS)];
    OneMore([], Responded(NO_HEADERS));
  }

  /**
   A stream whose head says OK and which its chain then refuses, as `HeadsCanSayOtherwise` shows
   it may: the caller reads the refusal, and telemetry has recorded the OK.
   */
  lemma StatedHeadsDiffer(head: Headers)
    requires head.status == Some(OK)
    ensures var t := StreamProtocol.Reached(0, StreamProtocol.Overruled(head));
      && t.Some? && |t.value.read| == 1 && ClosingCode(t.value.read[0]) == PERMISSION_DENIED
      && Recorded([Responded(head)] + Polls(t.value.read) + [Dropped]) == [Record(OK, 0, 0)]
  {
    StreamProtocol.HeadsCanSayOtherwise(head);
    var read := StreamProtocol.Reached(0, StreamProtocol.Overruled(head)).value.read;
    var history := [Responded(head)] + Polls(read) + [Dropped];
    assert EndsAt(history, 0);
    RecordedExactly(history, 0);
  }

  // ---------------------------------------------------------------- requests and errors

  /** A method of a service. */
  type Method = (string, string)

  /** A call that ended: with what, or with nothing because it was dropped first. */
  datatype Ended = Ended(called: Method, how: Option<Outcome>)

  /** A fault of the service's own, rather than a refusal it meant. */
  predicate IsServerError(status: Status) {
    status.code in {INTERNAL, UNKNOWN, DATA_LOSS, UNAVAILABLE, DEADLINE_EXCEEDED}
  }

  predicate IsFault(how: Option<Outcome>) {
    how.Some? && how.value.Err? && IsServerError(how.value.error)
  }

  function Requests(ended: seq<Ended>, called: Method): nat {
    if ended == [] then 0
    else Requests(ended[..|ended| - 1], called) + if ended[|ended| - 1].called == called then 1 else 0
  }

  function Faults(ended: seq<Ended>, called: Method): nat {
    if ended == [] then 0
    else
      Faults(ended[..|ended| - 1], called)
      + if ended[|ended| - 1].called == called && IsFault(ended[|ended| - 1].how) then 1 else 0
  }

  lemma EndedMore(ended: seq<Ended>, e: Ended)
    ensures forall called :: Requests(ended + [e], called) == Requests(ended, called) + if e.called == called then 1 else 0
    ensures forall called ::
      Faults(ended + [e], called) == Faults(ended, called) + if e.called == called && IsFault(e.how) then 1 else 0
  {
    assert (ended + [e])[..|ended|] == ended;
  }

  /** The guard of one traced call. */
  class CallGuard {
    var armed: bool

    constructor ()
      ensures armed
    {
      armed := true;
    }
  }

  class Observer {
    var requests: map<Method, nat>
    var errors: map<Method, nat>
    /** Every call that has ended, in the order they did. */
    ghost var ended: seq<Ended>

    function Shown(counter: map<Method, nat>, called: Method): nat {
      if called in counter then counter[called] else 0
    }

    /** The counters show the calls that ended, and the faults among them. */
    ghost predicate Valid()
      reads this
    {
      && (forall called :: Shown(requests, called) == Requests(ended, called))
      && (forall called :: Shown(errors, called) == Faults(ended, called))
    }

    constructor ()
      ensures Valid() && ended == []
    {
      requests, errors, ended := map[], map[], [];
    }

    /** `record`. */
    method RecordCall(called: Method, error: Option<Status>, ghost how: Option<Outcome>)
      requires Valid() && (IsFault(how) <==> error.Some? && IsServerError(error.value))
      modifies this
      ensures Valid() && ended == old(ended) + [Ended(called, how)]
    {
      requests := requests[called := Shown(requests, called) + 1];
      if error.Some? && IsServerError(error.value) {
        errors := errors[called := Shown(errors, called) + 1];
      }
      EndedMore(ended, Ended(called, how));
      ended := ended + [Ended(called, how)];
    }

    /** `Pending::drop`. */
    method DropPending(pending: CallGuard, called: Method)
      requires Valid()
      modifies this
      ensures Valid() && ended == old(ended) + if pending.armed then [Ended(called, None)] else []
    {
      if pending.armed { RecordCall(called, None, None); }
    }

    /** `traced`, around a body that ends in `how`, or is dropped before it does. It counts once either way. */
    method Traced(called: Method, how: Option<Outcome>) returns (result: Option<Outcome>)
      requires Valid()
      modifies this
      ensures Valid() && result == how && ended == old(ended) + [Ended(called, how)]
    {
      var pending := new CallGuard();
      if how.Some? {
        pending.armed := false;
        RecordCall(called, match how.value case Ok(_) => None case Err(status) => Some(status), how);
      }
      DropPending(pending, called);
      result := how;
    }
  }

  /** Every fault is a request, and a call nobody waited for is never a fault. */
  lemma {:induction false} FaultsAreRequests(ended: seq<Ended>, called: Method)
    ensures Faults(ended, called) <= Requests(ended, called)
    ensures (forall k | 0 <= k < |ended| :: ended[k].how.None?) ==> Faults(ended, called) == 0
    decreases |ended|
  {
    if ended != [] { FaultsAreRequests(ended[..|ended| - 1], called); }
  }
}
