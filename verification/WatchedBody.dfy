/**
 The response body of an intercepted stream. It tells the chain how the stream ended, then
 holds the trailers back until the chain has spoken.
 */
module WatchedBody {
  import opened Results
  import opened GrpcStatus
  import opened OneshotChannel
  import opened ByteStrings

  /** What one poll of a body yields. */
  datatype BodyPoll =
    | Pending
    | Data(bytes: Bytes)
    | Trailers(trailers: Headers)
    | Broke(status: Status)
    | End

  /** The code a caller takes from the item its stream closed with. */
  function ClosingCode(item: BodyPoll): Code {
    match item
    case Trailers(trailers) => CodeRead(trailers)
    case Broke(status) => status.code
    case _ => OK
  }

  /** The trailers a body holds back, and what they said. */
  type Held = Option<(Headers, Outcome)>

  /**
   The body's fields as values. `ended` is there until the body has said how it ended;
   `verdict` is the state of the channel it waits on.
   */
  datatype View = View(ended: bool, verdict: Chan<Outcome>, held: Held, finished: bool) {
    /** The verdict is still to come while the body is unfinished; held trailers were announced. */
    predicate Valid() {
      (!finished ==> verdict.CanPoll()) && (held.Some? ==> !ended)
    }

    /** The body has nothing more to ask of the service. */
    predicate Over() { held.Some? || finished }
  }

  /** One poll's effect: the new fields, what was sent on `ended`, and what the poll yields. */
  datatype Polled = Polled(body: View, sent: Option<Outcome>, result: BodyPoll)

  /** Waiting with trailers in hand: yields them, settled, once the verdict is known. */
  function PollHeld(body: View): Polled
    requires body.Valid() && body.held.Some? && !body.finished
  {
    match body.verdict.Ready()
    case None => Polled(body, None, Pending)
    case Some(verdict) =>
      var (trailers, service) := body.held.value;
      var settled := Settle(trailers, service, verdict);
      Polled(View(body.ended, body.verdict.AfterPoll(), None, true), None,
             if settled.IsEmpty() then End else Trailers(settled))
  }

  /** The end of the service's stream: told to the chain first, and only then held. */
  function PollEnding(body: View, trailers: Headers): Polled
    requires body.Valid() && !body.Over()
  {
    var outcome := TrailerOutcome(trailers);
    var polled := PollHeld(body.(ended := false, held := Some((trailers, outcome))));
    polled.(sent := if body.ended then Some(outcome) else None)
  }

  /** One poll of the body, when polling the service's own body would yield `inner`. */
  function Poll(body: View, inner: BodyPoll): Polled
    requires body.Valid()
  {
    if body.finished then Polled(body, None, End)
    else if body.held.Some? then PollHeld(body)
    else match inner
      case Pending => Polled(body, None, Pending)
      case Data(_) => Polled(body, None, inner)
      case Trailers(trailers) => PollEnding(body, trailers)
      case End => PollEnding(body, NO_HEADERS)
      case Broke(status) =>
        Polled(body.(ended := false, finished := true),
               if body.ended then Some(Err(status)) else None, inner)
  }

  /**
   No trailers reach the caller before the verdict does: a poll that yields trailers has
   resolved the verdict channel, and one that leaves the channel unresolved yields nothing
   after the service's stream is over.
   */
  lemma TrailersWaitForTheVerdict(body: View, inner: BodyPoll)
    requires body.Valid()
    ensures var polled := Poll(body, inner);
      && polled.body.Valid()
      && (polled.result.Trailers? ==> polled.body.verdict.Resolved?)
      && (polled.result.End? && !body.finished ==> polled.body.verdict.Resolved?)
      && (polled.body.verdict != body.verdict ==> polled.body.finished && body.verdict.Ready().Some?)
  {
  }

  /** The stream's end is announced in the very poll that learns of it, before anything waits. */
  lemma EndIsAnnouncedBeforeWaiting(body: View, inner: BodyPoll)
    requires body.Valid() && body.ended && !body.Over()
    ensures var polled := Poll(body, inner);
      && (inner.Trailers? || inner.End? || inner.Broke? <==> polled.sent.Some?)
      && (polled.sent.Some? <==> !polled.body.ended)
      && (polled.body.Over() <==> polled.sent.Some?)
  {
  }

  /** The body itself, over the two channels it shares with the chain. */
  class Watched {
    var ended: Oneshot?<Outcome>
    const verdict: Oneshot<Outcome>
    var held: Held
    var finished: bool

    ghost predicate Valid()
      reads this, ended, verdict
    {
      && ended != verdict
      && (ended != null ==> ended.chan.CanSend())
      && AsView().Valid()
    }

    ghost function AsView(): View
      reads this, verdict
    {
      View(ended != null, verdict.chan, held, finished)
    }

    constructor (ended: Oneshot<Outcome>, verdict: Oneshot<Outcome>)
      requires ended != verdict && ended.chan.CanSend() && verdict.chan.CanPoll()
      ensures Valid() && this.ended == ended && this.verdict == verdict
      ensures AsView() == View(true, verdict.chan, None, false)
    {
      this.ended := ended;
      this.verdict := verdict;
      this.held := None;
      this.finished := false;
    }

    /** Sends `outcome` if nothing has been sent yet. */
    method Announce(outcome: Outcome)
      requires Valid()
      modifies this`ended, ended
      ensures ended == null && held == old(held) && finished == old(finished)
      ensures old(ended) != null ==> old(ended).chan == old(ended.chan.AfterSend(outcome))
    {
      if ended != null {
        var _ := ended.Send(outcome);
        ended := null;
      }
    }

    /** `Watched::end`. */
    method EndWith(trailers: Headers)
      requires Valid() && !finished && held.None?
      modifies this, ended
      ensures Valid() && !finished
      ensures ended == null && held == Some((trailers, TrailerOutcome(trailers)))
      ensures old(ended) != null ==> old(ended).chan == old(ended.chan.AfterSend(TrailerOutcome(trailers)))
    {
      var outcome := TrailerOutcome(trailers);
      Announce(outcome);
      held := Some((trailers, outcome));
    }

    /**
     `poll_frame`, given what polling the service's body would yield. The loop asks the
     service at most once, and goes round again only to settle what it answered.
     */
    method PollFrame(inner: BodyPoll) returns (result: BodyPoll)
      requires Valid()
      modifies this, ended, verdict
      ensures Valid()
      ensures var polled := old(Poll(AsView(), inner));
        && AsView() == polled.body
        && result == polled.result
        && (ended == null || ended == old(ended))
        && (old(ended) != null ==>
              old(ended).chan == old(if Poll(AsView(), inner).sent.Some?
                                     then ended.chan.AfterSend(Poll(AsView(), inner).sent.value)
                                     else ended.chan))
    {
      ghost var before := AsView();
      ghost var sender := ended;
      while true
        invariant Valid() && !finished == !before.finished
        invariant verdict.chan == before.verdict
        invariant AsView() == before
               || (&& !before.Over() && (inner.Trailers? || inner.End?)
                   && AsView() == before.(ended := false,
                        held := (var t := if inner.Trailers? then inner.trailers else NO_HEADERS;
                                 Some((t, TrailerOutcome(t))))))
        invariant ended == null || ended == sender
        invariant sender != null ==>
          sender.chan == if AsView() == before then old(ended.chan)
                         else old(ended.chan).AfterSend(held.value.1)
        decreases held.None?
      {
        if finished { return End; }
        if held.Some? {
          var ready := verdict.Poll();
          match ready
          case None => return Pending;
          case Some(decided) =>
            var (trailers, service) := held.value;
            finished, held := true, None;
            var settled := Settle(trailers, service, decided);
            if settled.IsEmpty() { return End; }
            return Trailers(settled);
        }
        match inner
        case Pending => return Pending;
        case Data(bytes) => return inner;
        case Trailers(trailers) => EndWith(trailers);
        case End => EndWith(NO_HEADERS);
        case Broke(status) =>
          Announce(Err(status));
          finished := true;
          return inner;
      }
    }

    /** `Drop`: a body dropped before it ended means the caller went away. */
    method Drop()
      requires Valid()
      modifies this`ended, ended
      ensures ended == null
      ensures old(ended) != null ==> old(ended).chan == old(ended.chan.AfterSend(Err(CALLER_WENT_AWAY)))
    {
      Announce(Err(CALLER_WENT_AWAY));
    }
  }
}
