/**
 One intercepted streaming call as a transition system. Four parties share it: the caller's
 response future, the task running the interceptor chain, the body the transport polls, and
 the service. They meet through the reply slot, three one-shot channels and a caller-gone
 token, and any of them may be dropped wherever it waits.

 Interceptors are arbitrary: they may answer at once, pass the call on, give up waiting for
 the rest of the chain, and return any outcome they like.
 */
module StreamProtocol {
  import opened Results
  import opened GrpcStatus
  import opened OneshotChannel
  import opened WatchedBody

  /** What the caller's response future resolves to. */
  datatype Reply =
    | Streaming(head: Headers)
    | Answer(outcome: Outcome)
    | Fallback

  datatype CallerState = Waiting | Answered(reply: Reply) | Gone

  /** Where the chain's task is. */
  datatype ChainState =
    | Intercepting
    | AwaitingHead
    | AwaitingEnd
      // `forward` has returned this to the interceptors.
    | Unwinding(ended: Outcome)
      // An interceptor dropped the future it was waiting on.
    | Abandoned
    | Decided(outcome: Outcome)
    | Done(outcome: Outcome)
    | Dead

  datatype BodyState =
    | Unborn
    | Alive(ended: bool, held: Held, finished: bool)
    | Dropped

  /** What `drive` sends once the chain is over. */
  datatype Delivery = ToCaller(outcome: Outcome) | ToBody(outcome: Outcome)

  /**
   The system. `guarded` says that the response future has been polled: only then does dropping
   it fire the caller-gone token. The last six fields are history: how often the slot was taken, what `drive`
   sent, what was sent on `ended`, the data frames the service produced and the item its
   stream closed with, and what the caller read from the body.
   */
  datatype State = State(
    slot: bool,
    reply: Chan<Reply>,
    ended: Chan<Outcome>,
    verdict: Chan<Outcome>,
    guarded: bool,
    callerGone: bool,
    caller: CallerState,
    chain: ChainState,
    body: BodyState,
    budget: nat,
    faithful: bool,
    takes: nat,
    deliveries: seq<Delivery>,
    endings: seq<Outcome>,
    produced: seq<BodyPoll>,
    closing: Option<BodyPoll>,
    read: seq<BodyPoll>)
  {
    function BodyView(): View
      requires body.Alive?
    {
      View(body.ended, verdict, body.held, body.finished)
    }
  }

  datatype Label =
    | CallerWaits
    | CallerPolls
    | CallerDrops
    | CallService
    | HeadArrives(head: Headers)
    | SeeCallerGone
    | EndArrives
    | Abandon
    | Decide(outcome: Outcome)
    | Deliver
    | Die
    | PollBody(inner: BodyPoll)
    | DropBody

  /** A call just handed to its chain task; the service will produce at most `budget` data frames. */
  function Start(budget: nat): (s: State)
    ensures Inv(s)
  {
    State(true, Empty, Empty, Empty, false, false, Waiting, Intercepting, Unborn, budget, true,
          0, [], [], [], None, [])
  }

  predicate Enabled(s: State, l: Label) {
    match l
    case CallerWaits => s.caller.Waiting? && !s.guarded
    case CallerPolls => s.caller.Waiting? && (s.reply.Sent? || s.reply.SenderDropped?)
    case CallerDrops => s.caller.Waiting?
    case CallService => s.chain.Intercepting?
    case HeadArrives(_) => s.chain.AwaitingHead?
    case SeeCallerGone => s.chain.AwaitingHead? && s.callerGone
    case EndArrives => s.chain.AwaitingEnd? && (s.ended.Sent? || s.ended.SenderDropped?)
    case Abandon => s.chain.AwaitingHead? || s.chain.AwaitingEnd?
    case Decide(_) => s.chain.Intercepting? || s.chain.Unwinding? || s.chain.Abandoned?
    case Deliver => s.chain.Decided?
    case Die => s.chain.Intercepting? || s.chain.AwaitingHead? || s.chain.AwaitingEnd?
                || s.chain.Unwinding? || s.chain.Abandoned?
    case PollBody(inner) =>
      && s.caller.Answered? && s.caller.reply.Streaming? && s.body.Alive?
      // A body whose stream is over does not ask the service again.
      && (s.BodyView().Over() ==> inner.Pending?)
      && (inner.Data? ==> s.budget > 0)
    case DropBody => s.caller.Answered? && s.caller.reply.Streaming? && s.body.Alive?
  }

  /** `Watched` dropped by whoever holds it: announces a cancellation if it never announced an end. */
  function WithoutBody(s: State): State
    requires s.body.Alive?
    requires s.body.ended ==> s.ended.CanSend()
  {
    s.(body := Dropped,
       verdict := s.verdict.AfterReceiverDrop(),
       ended := if s.body.ended then s.ended.AfterSend(Err(CALLER_WENT_AWAY)) else s.ended,
       endings := if s.body.ended then s.endings + [Err(CALLER_WENT_AWAY)] else s.endings)
  }

  /** `forward` once the service has answered. */
  function WithHead(s: State, head: Headers): State
    requires s.slot && s.reply.CanSend() && s.body.Unborn? && s.ended.CanSend()
  {
    var status := StatusOf(head);
    if status.Some? && status.value.code != OK then
      // A trailers-only refusal: nothing was sent, so the chain still decides.
      s.(chain := Unwinding(Err(status.value)), verdict := s.verdict.AfterReceiverDrop())
    else
      var taken := s.(slot := false, takes := s.takes + 1,
                      reply := s.reply.AfterSend(Streaming(head)),
                      body := Alive(true, None, false));
      if s.reply.Empty? then taken.(chain := AwaitingEnd)
      else
        // Nobody took the response, so the body goes with it.
        WithoutBody(taken).(chain := Unwinding(Err(CALLER_WENT_AWAY)), ended := ReceiverDropped)
  }

  /** The chain's task gone: every end of a channel it held is dropped. */
  function WithoutChain(s: State): State {
    s.(chain := Dead,
       slot := false,
       reply := if s.slot then s.reply.AfterSenderDrop() else s.reply,
       ended := if s.chain.AwaitingEnd? then s.ended.AfterReceiverDrop() else s.ended,
       verdict := s.verdict.AfterSenderDrop())
  }

  function Next(s: State, l: Label): State
    requires Enabled(s, l) && Inv(s)
  {
    match l
    case CallerWaits => s.(guarded := true)
    case CallerPolls =>
      s.(caller := Answered(s.reply.Ready().value.UnwrapOr(Fallback)), reply := s.reply.AfterPoll())
    case CallerDrops =>
      var gone := s.(caller := Gone, callerGone := s.guarded, reply := s.reply.AfterReceiverDrop());
      // A response in flight is dropped with the receiver, and its body with it.
      if s.body.Alive? then WithoutBody(gone) else gone
    case CallService => s.(chain := AwaitingHead)
    case HeadArrives(head) => WithHead(s, head)
    case SeeCallerGone =>
      s.(chain := Unwinding(Err(CALLER_WENT_AWAY)), verdict := s.verdict.AfterReceiverDrop())
    case EndArrives =>
      s.(chain := Unwinding(s.ended.Ready().value.UnwrapOr(Err(CALLER_WENT_AWAY))), ended := s.ended.AfterPoll())
    case Abandon =>
      if s.chain.AwaitingHead? then s.(chain := Abandoned, verdict := s.verdict.AfterReceiverDrop())
      else s.(chain := Abandoned, ended := s.ended.AfterReceiverDrop())
    case Decide(outcome) =>
      s.(chain := Decided(outcome),
         faithful := s.faithful && s.chain == Unwinding(outcome),
         // A chain that never passed the call on drops the terminal, which held the receiver.
         verdict := if s.chain.Intercepting? then s.verdict.AfterReceiverDrop() else s.verdict)
    case Deliver =>
      var outcome := s.chain.outcome;
      if s.slot then
        s.(chain := Done(outcome), slot := false, takes := s.takes + 1,
           reply := s.reply.AfterSend(Answer(outcome)),
           verdict := s.verdict.AfterSenderDrop(),
           deliveries := s.deliveries + [ToCaller(outcome)])
      else
        s.(chain := Done(outcome),
           verdict := s.verdict.AfterSend(outcome),
           deliveries := s.deliveries + [ToBody(outcome)])
    case Die => WithoutChain(s)
    case PollBody(inner) =>
      var polled := Poll(s.BodyView(), inner);
      s.(body := Alive(polled.body.ended, polled.body.held, polled.body.finished),
         verdict := polled.body.verdict,
         ended := if polled.sent.Some? then s.ended.AfterSend(polled.sent.value) else s.ended,
         endings := if polled.sent.Some? then s.endings + [polled.sent.value] else s.endings,
         budget := if inner.Data? then s.budget - 1 else s.budget,
         produced := if inner.Data? then s.produced + [inner] else s.produced,
         closing := if inner.Trailers? || inner.Broke? || inner.End? then Some(inner) else s.closing,
         read := if polled.result.Pending? then s.read else s.read + [polled.result])
    case DropBody => WithoutBody(s)
  }

  // ---------------------------------------------------------------- the invariant

  /** Who has taken the reply slot, and what the caller may find in the reply channel. */
  predicate ReplyInv(s: State) {
    var forwarded := !s.body.Unborn?;
    && s.takes <= 1
    && (s.chain.Intercepting? || s.chain.AwaitingHead? ==> !forwarded)
    && (s.chain.AwaitingEnd? ==> forwarded)
    && (s.slot <==> !forwarded && !s.chain.Done? && !s.chain.Dead?)
    && (s.slot ==> s.takes == 0)
    && (forwarded || s.chain.Done? ==> s.takes == 1)
    && s.deliveries == (if s.chain.Done?
                        then [if forwarded then ToBody(s.chain.outcome) else ToCaller(s.chain.outcome)]
                        else [])
    && (s.callerGone ==> s.caller.Gone?)
    && (match s.caller
        case Gone => s.reply.ReceiverDropped?
        case Waiting =>
          if forwarded then s.reply.Sent? && s.reply.value.Streaming?
          else if s.chain.Done? then s.reply == Sent(Answer(s.chain.outcome))
          else if s.chain.Dead? then s.reply.SenderDropped?
          else s.reply.Empty?
        case Answered(reply) =>
          && s.reply.Resolved?
          && (match reply
              case Streaming(_) => forwarded
              case Answer(outcome) => !forwarded && s.chain == Done(outcome)
              case Fallback => !forwarded && s.chain.Dead?))
  }

  /** How the body's end reaches the chain. */
  predicate EndInv(s: State) {
    if s.body.Unborn? then s.endings == [] && s.ended.Empty?
    else
      && |s.endings| <= 1
      && (if s.chain.AwaitingEnd?
          then s.ended == (if s.endings == [] then Empty else Sent(s.endings[0]))
          else s.ended.ReceiverDropped? || (s.endings != [] && s.ended == Resolved(Some(s.endings[0]))))
      && (s.chain.Unwinding? ==> s.endings == [s.chain.ended])
      && (if s.body.Dropped? then s.endings != [] else AliveInv(s))
  }

  /** A body still held by the response in flight or by the transport. */
  predicate AliveInv(s: State)
    requires s.body.Alive?
  {
    && (s.body.ended <==> s.endings == [])
    && (s.body.ended <==> s.body.held.None? && !s.body.finished)
    && !s.caller.Gone?
    && (s.caller.Waiting? ==> s.read == [] && s.endings == [])
  }

  /** What the body may find in the verdict channel. */
  predicate VerdictInv(s: State) {
    match s.body
    case Unborn => s.chain.Intercepting? || s.chain.AwaitingHead? ==> s.verdict.Empty?
    case Dropped => s.verdict.ReceiverDropped? || VerdictResolved(s)
    case Alive(_, _, finished) =>
      && s.BodyView().Valid()
      && (!finished ==> !s.verdict.ReceiverDropped?)
      && (VerdictResolved(s)
          || (match s.chain
              case Done(outcome) => s.verdict == Sent(outcome)
              case Dead => s.verdict.SenderDropped?
              case _ => s.verdict.Empty?))
  }

  /** The body has heard what the chain decided, or that it never will. */
  predicate VerdictResolved(s: State) {
    match s.chain
    case Done(outcome) => s.verdict == Resolved(Some(outcome))
    case Dead => s.verdict == Resolved(None)
    case _ => false
  }

  /** What the caller reads after the data, once the stream is over. */
  predicate ClosingRead(closing: BodyPoll, verdict: Chan<Outcome>, tail: seq<BodyPoll>) {
    if closing.Broke? then tail != [] && tail[0] == closing && Ends(tail[1..])
    else
      var trailers := if closing.Trailers? then closing.trailers else NO_HEADERS;
      && verdict.Resolved?
      && var settled := Settle(trailers, TrailerOutcome(trailers), verdict.got);
         if settled.IsEmpty() then tail != [] && Ends(tail)
         else tail != [] && tail[0] == Trailers(settled) && Ends(tail[1..])
  }

  predicate Ends(tail: seq<BodyPoll>) {
    forall i | 0 <= i < |tail| :: tail[i].End?
  }

  /** What the closing item of the service's stream announces. */
  function Announced(closing: BodyPoll): Outcome {
    match closing
    case Trailers(trailers) => TrailerOutcome(trailers)
    case Broke(status) => Err(status)
    case _ => TrailerOutcome(NO_HEADERS)
  }

  /** The caller reads the service's data in order, then at most one closing item. */
  predicate ReadInv(s: State) {
    && (forall i | 0 <= i < |s.produced| :: s.produced[i].Data?)
    && s.produced <= s.read
    && (s.closing.Some? ==> s.closing.value.Trailers? || s.closing.value.Broke? || s.closing.value.End?)
    && (s.body.Unborn? ==> s.closing.None? && s.read == [])
    && (s.closing.None? ==> s.read == s.produced)
    && (s.body.Alive? ==> (s.closing.None? <==> s.body.ended))
    && (s.closing.Some? ==> s.endings == [Announced(s.closing.value)])
    && (s.closing.None? && s.endings != [] ==> s.endings == [Err(CALLER_WENT_AWAY)])
    && (s.body.Alive? && s.body.held.Some? ==>
          && s.read == s.produced && !s.body.finished && s.closing.Some? && !s.closing.value.Broke?
          && var trailers := if s.closing.value.Trailers? then s.closing.value.trailers else NO_HEADERS;
             s.body.held.value == (trailers, TrailerOutcome(trailers)))
    && (s.body.Alive? && s.body.finished ==> s.read != s.produced)
    && (s.read != s.produced ==>
          s.closing.Some? && ClosingRead(s.closing.value, s.verdict, s.read[|s.produced|..]))
  }

  /** A chain that only ever passed on what it was told decides what the body announced. */
  predicate FaithfulInv(s: State) {
    s.faithful && (s.chain.Decided? || s.chain.Done?) && !s.body.Unborn? ==>
      s.endings == [s.chain.outcome]
  }

  predicate Inv(s: State) {
    ReplyInv(s) && EndInv(s) && VerdictInv(s) && ReadInv(s) && FaithfulInv(s)
  }

  lemma StepKeepsInv(s: State, l: Label)
    requires Inv(s) && Enabled(s, l)
    ensures Inv(Next(s, l))
  {
    match l
    case PollBody(inner) =>
      PollKeepsChannels(s, inner);
      PollKeepsRead(s, inner);
    case HeadArrives(head) => HeadKeepsInv(s, head);
    case Deliver => DeliverKeepsInv(s);
    case Die => DeathKeepsInv(s);
    case CallerDrops => CallerDropKeepsInv(s);
    case DropBody => BodyDropKeepsInv(s);
    case Decide(outcome) => DecisionKeepsInv(s, outcome);
    case CallerPolls => AnswerKeepsInv(s);
    case EndArrives => EndKeepsInv(s);
    case Abandon => AbandonKeepsInv(s);
    case CallerWaits => WaitingKeepsInv(s);
    case CallService => PassingOnKeepsInv(s);
    case SeeCallerGone => SeeingKeepsInv(s);
  }

  lemma AnswerKeepsInv(s: State)
    requires Inv(s) && Enabled(s, CallerPolls)
    ensures Inv(Next(s, CallerPolls))
  {
  }

  lemma EndKeepsInv(s: State)
    requires Inv(s) && Enabled(s, EndArrives)
    ensures Inv(Next(s, EndArrives))
  {
  }

  lemma AbandonKeepsInv(s: State)
    requires Inv(s) && Enabled(s, Abandon)
    ensures Inv(Next(s, Abandon))
  {
  }

  lemma WaitingKeepsInv(s: State)
    requires Inv(s) && Enabled(s, CallerWaits)
    ensures Inv(Next(s, CallerWaits))
  {
  }

  lemma PassingOnKeepsInv(s: State)
    requires Inv(s) && Enabled(s, CallService)
    ensures Inv(Next(s, CallService))
  {
  }

  lemma SeeingKeepsInv(s: State)
    requires Inv(s) && Enabled(s, SeeCallerGone)
    ensures Inv(Next(s, SeeCallerGone))
  {
  }

  lemma CallerDropKeepsInv(s: State)
    requires Inv(s) && Enabled(s, CallerDrops)
    ensures Inv(Next(s, CallerDrops))
  {
  }

  lemma BodyDropKeepsInv(s: State)
    requires Inv(s) && Enabled(s, DropBody)
    ensures Inv(Next(s, DropBody))
  {
  }

  lemma DecisionKeepsInv(s: State, outcome: Outcome)
    requires Inv(s) && Enabled(s, Decide(outcome))
    ensures Inv(Next(s, Decide(outcome)))
  {
  }

  lemma HeadKeepsInv(s: State, head: Headers)
    requires Inv(s) && Enabled(s, HeadArrives(head))
    ensures Inv(Next(s, HeadArrives(head)))
  {
  }

  lemma DeliverKeepsInv(s: State)
    requires Inv(s) && Enabled(s, Deliver)
    ensures Inv(Next(s, Deliver))
  {
  }

  lemma DeathKeepsInv(s: State)
    requires Inv(s) && Enabled(s, Die)
    ensures Inv(Next(s, Die))
  {
  }

  lemma PollKeepsChannels(s: State, inner: BodyPoll)
    requires Inv(s) && Enabled(s, PollBody(inner))
    ensures var t := Next(s, PollBody(inner));
      ReplyInv(t) && EndInv(t) && VerdictInv(t) && FaithfulInv(t)
  {
    TrailersWaitForTheVerdict(s.BodyView(), inner);
  }

  lemma PollKeepsRead(s: State, inner: BodyPoll)
    requires Inv(s) && Enabled(s, PollBody(inner))
    ensures ReadInv(Next(s, PollBody(inner)))
  {
    if s.body.finished {
      FinishedPollKeepsRead(s);
    } else if s.body.held.Some? {
      HeldPollKeepsRead(s);
    } else {
      OpenPollKeepsRead(s, inner);
    }
  }

  lemma HeldPollKeepsRead(s: State)
    requires Inv(s) && Enabled(s, PollBody(Pending)) && !s.body.finished && s.body.held.Some?
    ensures ReadInv(Next(s, PollBody(Pending)))
  {
    var t := Next(s, PollBody(Pending));
    assert t.read != t.produced ==> t.read[|t.produced|..] == [t.read[|t.produced|]];
  }

  lemma OpenPollKeepsRead(s: State, inner: BodyPoll)
    requires Inv(s) && Enabled(s, PollBody(inner)) && !s.body.finished && s.body.held.None?
    ensures ReadInv(Next(s, PollBody(inner)))
  {
    var t := Next(s, PollBody(inner));
    assert t.read != t.produced ==> t.read[|t.produced|..] == [t.read[|t.produced|]];
  }

  lemma FinishedPollKeepsRead(s: State)
    requires Inv(s) && Enabled(s, PollBody(Pending)) && s.body.finished
    ensures ReadInv(Next(s, PollBody(Pending)))
  {
    var t := Next(s, PollBody(Pending));
    assert t.read[|t.produced|..] == s.read[|s.produced|..] + [End];
  }

  // ---------------------------------------------------------------- runs

  /** The state `labels` lead to, or nothing when one of them cannot happen. */
  function After(s: State, labels: seq<Label>): Option<State>
    requires Inv(s)
    decreases |labels|
  {
    if labels == [] then Some(s)
    else if !Enabled(s, labels[0]) then None
    else
      StepKeepsInv(s, labels[0]);
      After(Next(s, labels[0]), labels[1..])
  }

  /** The state a whole run of one call reaches. */
  function Reached(budget: nat, labels: seq<Label>): Option<State> {
    After(Start(budget), labels)
  }

  /** Every state a run passes through is sound. */
  lemma {:induction false} StaysSound(s: State, labels: seq<Label>)
    requires Inv(s) && After(s, labels).Some?
    ensures Inv(After(s, labels).value)
    decreases |labels|
  {
    if labels != [] {
      StepKeepsInv(s, labels[0]);
      StaysSound(Next(s, labels[0]), labels[1..]);
    }
  }

  lemma ReachedIsSound(budget: nat, labels: seq<Label>)
    requires Reached(budget, labels).Some?
    ensures Inv(Reached(budget, labels).value)
  {
    StaysSound(Start(budget), labels);
  }

  /** Nothing in `t` takes back what `s` had: answers stand, and every history only grows. */
  ghost predicate Adds(s: State, t: State) {
    && (!s.caller.Waiting? ==> t.caller == s.caller)
    && (s.chain.Done? || s.chain.Dead? ==> t.chain == s.chain)
    && s.read <= t.read && s.produced <= t.produced
    && s.endings <= t.endings && s.deliveries <= t.deliveries
    && (s.closing.Some? ==> t.closing == s.closing && t.produced == s.produced)
    && (s.verdict.Resolved? ==> t.verdict == s.verdict)
  }

  /** Nothing observable is ever taken back. */
  lemma StepsOnlyAdd(s: State, l: Label)
    requires Inv(s) && Enabled(s, l)
    ensures Adds(s, Next(s, l))
  {
    match l {
      case PollBody(inner) => PollOnlyAdds(s, inner);
      case HeadArrives(head) => HeadOnlyAdds(s, head);
      case _ => MoveOnlyAdds(s, l);
    }
  }

  lemma PollOnlyAdds(s: State, inner: BodyPoll)
    requires Inv(s) && Enabled(s, PollBody(inner))
    ensures Adds(s, Next(s, PollBody(inner)))
  {
  }

  lemma HeadOnlyAdds(s: State, head: Headers)
    requires Inv(s) && Enabled(s, HeadArrives(head))
    ensures Adds(s, Next(s, HeadArrives(head)))
  {
  }

  lemma MoveOnlyAdds(s: State, l: Label)
    requires Inv(s) && Enabled(s, l) && !l.PollBody? && !l.HeadArrives?
    ensures Adds(s, Next(s, l))
  {
  }

  /** And so over any stretch of a run. */
  lemma {:induction false} RunsOnlyAdd(s: State, labels: seq<Label>)
    requires Inv(s) && After(s, labels).Some?
    ensures Adds(s, After(s, labels).value)
    decreases |labels|
  {
    if labels != [] {
      StepKeepsInv(s, labels[0]);
      StepsOnlyAdd(s, labels[0]);
      RunsOnlyAdd(Next(s, labels[0]), labels[1..]);
    }
  }

  /**
   In every run the slot is taken at most once, a finished chain delivered exactly one thing,
   to the body exactly when the service's response took the slot, and the caller's answer is
   the service's head, the chain's own outcome, or the fallback for a chain that died.
   */
  lemma OneAnswerPerCall(budget: nat, labels: seq<Label>)
    requires Reached(budget, labels).Some?
    ensures var t := Reached(budget, labels).value;
      var forwarded := !t.body.Unborn?;
      && t.takes <= 1
      && (t.chain.Done? ==>
            t.deliveries == [if forwarded then ToBody(t.chain.outcome) else ToCaller(t.chain.outcome)])
      && (!t.chain.Done? ==> t.deliveries == [])
      && (t.caller == Answered(Fallback) ==> t.chain.Dead? && !forwarded)
      && (t.caller.Answered? && t.caller.reply.Streaming? ==> forwarded)
      && (t.caller.Answered? && t.caller.reply.Answer? ==> !forwarded && t.chain == Done(t.caller.reply.outcome))
  {
    ReachedIsSound(budget, labels);
  }

  /** The chain hears exactly one ending for a body that ended or was dropped, and none before. */
  lemma EndIsAnnouncedOnce(budget: nat, labels: seq<Label>)
    requires Reached(budget, labels).Some?
    ensures var t := Reached(budget, labels).value;
      && (t.body.Unborn? ==> t.endings == [])
      && (t.body.Dropped? ==> |t.endings| == 1)
      && (t.body.Alive? ==> |t.endings| == if t.body.held.Some? || t.body.finished then 1 else 0)
      && (t.closing.Some? ==> t.endings == [Announced(t.closing.value)])
      && (t.body.Dropped? && t.closing.None? ==> t.endings == [Err(CALLER_WENT_AWAY)])
  {
    ReachedIsSound(budget, labels);
  }

  // ---------------------------------------------------------------- no deadlock

  predicate CallerCanMove(s: State) { Enabled(s, CallerPolls) }

  /** The chain's task is not waiting on anyone but its own interceptors or the service's head. */
  predicate ChainCanMove(s: State) {
    !s.chain.Done? && !s.chain.Dead? && (s.chain.AwaitingEnd? ==> Enabled(s, EndArrives))
  }

  /** The transport can poll the body to some effect: ask the service, or hear the verdict. */
  predicate BodyCanMove(s: State) {
    && s.caller.Answered? && s.caller.reply.Streaming? && s.body.Alive? && !s.body.finished
    && (s.body.held.Some? ==> !s.verdict.Empty?)
  }

  /** Nobody is left waiting: the caller has its answer, the chain is over, the body has ended. */
  predicate Settled(s: State) {
    && !s.caller.Waiting?
    && (s.chain.Done? || s.chain.Dead?)
    && (s.body.Alive? ==> s.body.finished)
  }

  /** The chain never waits for the stream's end while the body waits for the chain's verdict. */
  lemma NeverWaitForEachOther(budget: nat, labels: seq<Label>)
    requires Reached(budget, labels).Some?
    ensures var t := Reached(budget, labels).value;
      !(t.chain.AwaitingEnd? && t.ended.Empty? && t.body.Alive? && t.body.held.Some?)
  {
    ReachedIsSound(budget, labels);
  }

  /** No run deadlocks: until everyone is done, someone can move. */
  lemma NoDeadlock(budget: nat, labels: seq<Label>)
    requires Reached(budget, labels).Some?
    ensures var t := Reached(budget, labels).value;
      Settled(t) || CallerCanMove(t) || ChainCanMove(t) || BodyCanMove(t)
  {
    ReachedIsSound(budget, labels);
  }

  /** A poll that finds nothing ready, or that repeats the end of a finished body. */
  predicate Stutters(s: State, l: Label) {
    && l.PollBody? && s.body.Alive?
    && (s.body.finished
        || (s.body.held.Some? && s.verdict.Empty?)
        || (s.body.held.None? && l.inner.Pending?))
  }

  function Measure(s: State): nat {
    s.budget
    + (if !s.caller.Waiting? then 0 else if s.guarded then 1 else 2)
    + (match s.chain
       case Intercepting => 8
       case AwaitingHead => 7
       case AwaitingEnd => 3
       case Unwinding(_) => 2
       case Abandoned => 2
       case Decided(_) => 1
       case Done(_) => 0
       case Dead => 0)
    + (match s.body
       case Alive(_, held, finished) => if finished then 1 else if held.Some? then 2 else 3
       case _ => 0)
  }

  /** Every step that does anything, drops and deaths included, uses the run up. */
  lemma EveryMoveCounts(s: State, l: Label)
    requires Inv(s) && Enabled(s, l)
    ensures Stutters(s, l) ==> Next(s, l).(read := s.read) == s
    ensures !Stutters(s, l) ==> Measure(Next(s, l)) < Measure(s)
  {
    match l {
      case PollBody(inner) => PollCounts(s, inner);
      case HeadArrives(head) => HeadCounts(s, head);
      case _ => MoveCounts(s, l);
    }
  }

  lemma PollCounts(s: State, inner: BodyPoll)
    requires Inv(s) && Enabled(s, PollBody(inner))
    ensures Stutters(s, PollBody(inner)) ==> Next(s, PollBody(inner)).(read := s.read) == s
    ensures !Stutters(s, PollBody(inner)) ==> Measure(Next(s, PollBody(inner))) < Measure(s)
  {
  }

  lemma HeadCounts(s: State, head: Headers)
    requires Inv(s) && Enabled(s, HeadArrives(head))
    ensures Measure(Next(s, HeadArrives(head))) < Measure(s)
  {
  }

  lemma MoveCounts(s: State, l: Label)
    requires Inv(s) && Enabled(s, l) && !l.PollBody? && !l.HeadArrives?
    ensures Measure(Next(s, l)) < Measure(s)
  {
  }

  /** How many of `labels` do anything when run from `s`. */
  function Moves(s: State, labels: seq<Label>): nat
    requires Inv(s) && After(s, labels).Some?
    decreases |labels|
  {
    if labels == [] then 0
    else
      StepKeepsInv(s, labels[0]);
      (if Stutters(s, labels[0]) then 0 else 1) + Moves(Next(s, labels[0]), labels[1..])
  }

  /** No run goes on for ever: what is left to do bounds how much of it can be done. */
  lemma {:induction false} RunsAreBounded(s: State, labels: seq<Label>)
    requires Inv(s) && After(s, labels).Some?
    ensures Moves(s, labels) + Measure(After(s, labels).value) <= Measure(s)
    decreases |labels|
  {
    if labels != [] {
      StepKeepsInv(s, labels[0]);
      EveryMoveCounts(s, labels[0]);
      RunsAreBounded(Next(s, labels[0]), labels[1..]);
    }
  }

  /** A call takes at most ten steps beyond the service's data frames. */
  lemma CallsAreBounded(budget: nat, labels: seq<Label>)
    requires Reached(budget, labels).Some?
    ensures Moves(Start(budget), labels) <= budget + 10
  {
    RunsAreBounded(Start(budget), labels);
  }

  /** No party is dropped, dies or gives up waiting. */
  predicate Cooperative(l: Label) {
    !l.CallerDrops? && !l.Die? && !l.Abandon? && !l.DropBody? && !l.SeeCallerGone?
  }

  /** A step that brings an unsettled call nearer its end. */
  function Helpful(s: State): Label {
    match s.chain
    case Intercepting => CallService
    case AwaitingHead => HeadArrives(NO_HEADERS)
    case Unwinding(ended) => Decide(ended)
    case Abandoned => Decide(Ok(()))
    case Decided(_) => Deliver
    case _ =>
      if s.chain.AwaitingEnd? && !s.ended.Empty? then EndArrives
      else if s.caller.Waiting? then CallerPolls
      else PollBody(if s.body.Alive? && s.body.held.Some? then Pending else End)
  }

  lemma HelpfulHelps(s: State)
    requires Inv(s) && !Settled(s)
    ensures Enabled(s, Helpful(s)) && !Stutters(s, Helpful(s)) && Cooperative(Helpful(s))
  {
  }

  lemma AfterFirst(s: State, l: Label, more: seq<Label>)
    requires Inv(s) && Enabled(s, l)
    ensures Inv(Next(s, l)) && After(s, [l] + more) == After(Next(s, l), more)
  {
    StepKeepsInv(s, l);
    assert ([l] + more)[1..] == more;
  }

  lemma {:induction false} AfterConcat(s: State, a: seq<Label>, b: seq<Label>)
    requires Inv(s) && After(s, a).Some?
    ensures Inv(After(s, a).value)
    ensures After(s, a + b) == After(After(s, a).value, b)
    decreases |a|
  {
    if a == [] {
      assert a + b == b;
    } else {
      var l, rest := a[0], a[1..];
      assert a == [l] + rest && a + b == [l] + (rest + b);
      AfterFirst(s, l, rest);
      AfterFirst(s, l, rest + b);
      AfterConcat(Next(s, l), rest, b);
    }
  }

  lemma {:induction false} CanComplete(s: State) returns (more: seq<Label>)
    requires Inv(s)
    ensures forall l | l in more :: Cooperative(l)
    ensures After(s, more).Some? && Settled(After(s, more).value)
    decreases Measure(s)
  {
    if Settled(s) {
      more := [];
    } else {
      var l := Helpful(s);
      HelpfulHelps(s);
      EveryMoveCounts(s, l);
      StepKeepsInv(s, l);
      var rest := CanComplete(Next(s, l));
      AfterFirst(s, l, rest);
      more := [l] + rest;
    }
  }

  /**
   Whatever has happened so far, parties that go on co-operating bring the call to its end:
   everyone answered, the chain over and the body finished.
   */
  lemma EveryCallCanComplete(budget: nat, labels: seq<Label>) returns (more: seq<Label>)
    requires Reached(budget, labels).Some?
    ensures forall l | l in more :: Cooperative(l)
    ensures Reached(budget, labels + more).Some? && Settled(Reached(budget, labels + more).value)
  {
    ReachedIsSound(budget, labels);
    more := CanComplete(Reached(budget, labels).value);
    AfterConcat(Start(budget), labels, more);
  }

  // ---------------------------------------------------------------- what the caller reads

  /**
   What the caller reads is the service's data, whole and in order, then at most one closing
   item, then only ends. An error closes the stream as the service sent it; anything else
   closes it with trailers or an end.
   */
  lemma CallerReadsTheServicesData(budget: nat, labels: seq<Label>)
    requires Reached(budget, labels).Some?
    ensures var t := Reached(budget, labels).value;
      && (forall i | 0 <= i < |t.produced| :: t.produced[i].Data? && i < |t.read| && t.read[i] == t.produced[i])
      && (forall i | |t.produced| <= i < |t.read| :: !t.read[i].Data? && (i > |t.produced| ==> t.read[i].End?))
      && (|t.read| > |t.produced| ==>
            && t.closing.Some?
            && (t.closing.value.Broke? <==> t.read[|t.produced|].Broke?)
            && (t.closing.value.Broke? ==> t.read[|t.produced|] == t.closing.value))
  {
    ReachedIsSound(budget, labels);
    var t := Reached(budget, labels).value;
    if |t.read| > |t.produced| {
      var tail := t.read[|t.produced|..];
      forall i | |t.produced| <= i < |t.read|
        ensures t.read[i] == tail[i - |t.produced|]
        ensures i > |t.produced| ==> t.read[i] == tail[1..][i - |t.produced| - 1]
      {
      }
    }
  }

  /** What is read after the data closes the stream. */
  lemma ClosesWhenRead(budget: nat, labels: seq<Label>)
    requires Reached(budget, labels).Some?
    requires var t := Reached(budget, labels).value; |t.read| > |t.produced|
    ensures var item := Reached(budget, labels).value.read[|Reached(budget, labels).value.produced|];
      item.Trailers? || item.Broke? || item.End?
  {
    ReachedIsSound(budget, labels);
    var t := Reached(budget, labels).value;
    assert t.read[|t.produced|] == t.read[|t.produced|..][0];
  }

  /**
   A stream that ended without a body error closes with the chain's verdict code, or with the
   service's own when the chain died, and never before one of the two is known.
   */
  lemma ClosingCodeIsTheVerdicts(budget: nat, labels: seq<Label>)
    requires Reached(budget, labels).Some?
    requires var t := Reached(budget, labels).value;
      |t.read| > |t.produced| && !t.read[|t.produced|].Broke?
    ensures var t := Reached(budget, labels).value;
      && (t.chain.Done? || t.chain.Dead?)
      && t.verdict.Resolved? && t.endings != []
      && ClosingCode(t.read[|t.produced|])
         == CodeOf(if t.chain.Done? then t.chain.outcome else t.endings[0])
  {
    ReachedIsSound(budget, labels);
    var t := Reached(budget, labels).value;
    CallerReadsTheServicesData(budget, labels);
    var trailers := if t.closing.value.Trailers? then t.closing.value.trailers else NO_HEADERS;
    SettledCode(trailers, t.verdict.got);
    TrailerOutcomeCode(trailers);
    assert t.read[|t.produced|] == t.read[|t.produced|..][0];
  }

  /**
   A chain whose interceptors all return what they were told is invisible: the caller's
   closing item is the service's own, its trailers untouched, whether or not the chain died.
   */
  lemma FaithfulChainIsInvisible(budget: nat, labels: seq<Label>)
    requires Reached(budget, labels).Some?
    requires var t := Reached(budget, labels).value; t.faithful && |t.read| > |t.produced|
    ensures var t := Reached(budget, labels).value;
      && t.closing.Some?
      && t.read[|t.produced|] == (if t.closing.value.Trailers? && t.closing.value.trailers.IsEmpty()
                                  then End else t.closing.value)
  {
    ReachedIsSound(budget, labels);
    var t := Reached(budget, labels).value;
    assert t.read[|t.produced|] == t.read[|t.produced|..][0];
  }

  const REFUSED := Status(PERMISSION_DENIED, "", map[])

  /** A run whose service sends a head that says OK, over which the chain then refuses the call. */
  function Overruled(head: Headers): seq<Label> {
    [CallService] + ([HeadArrives(head)] + ([CallerPolls] + ([PollBody(End)] + ([EndArrives] + Refusal()))))
  }

  function Refusal(): seq<Label> {
    [Decide(Err(REFUSED))] + ([Deliver] + ([PollBody(Pending)] + []))
  }

  /** The head has reached the caller, and the stream has delivered nothing yet. */
  function Streamed(head: Headers): State {
    Start(0).(slot := false, reply := Resolved(Some(Streaming(head))), caller := Answered(Streaming(head)),
              chain := AwaitingEnd, body := Alive(true, None, false), takes := 1)
  }

  /** The stream has ended and the chain has been told so. */
  function Told(head: Headers): State {
    Streamed(head).(chain := Unwinding(Ok(())), body := Alive(false, Some((NO_HEADERS, Ok(()))), false),
                    ended := Resolved(Some(Ok(()))), endings := [Ok(())], closing := Some(End))
  }

  lemma StreamedReached(head: Headers, rest: seq<Label>)
    requires head.status == Some(OK)
    ensures Inv(Streamed(head))
    ensures After(Start(0), [CallService] + ([HeadArrives(head)] + ([CallerPolls] + rest))) == After(Streamed(head), rest)
  {
    AfterFirst(Start(0), CallService, [HeadArrives(head)] + ([CallerPolls] + rest));
    var called := Next(Start(0), CallService);
    AfterFirst(called, HeadArrives(head), [CallerPolls] + rest);
    AfterFirst(Next(called, HeadArrives(head)), CallerPolls, rest);
  }

  lemma ToldReached(head: Headers, rest: seq<Label>)
    requires Inv(Streamed(head))
    ensures Inv(Told(head))
    ensures After(Streamed(head), [PollBody(End)] + ([EndArrives] + rest)) == After(Told(head), rest)
  {
    AfterFirst(Streamed(head), PollBody(End), [EndArrives] + rest);
    AfterFirst(Next(Streamed(head), PollBody(End)), EndArrives, rest);
  }

  /** The chain has refused the call, and the body is yet to hear of it. */
  function Refused(head: Headers): State {
    Told(head).(chain := Done(Err(REFUSED)), faithful := false, verdict := Sent(Err(REFUSED)),
                deliveries := [ToBody(Err(REFUSED))])
  }

  lemma RefusedReached(head: Headers, rest: seq<Label>)
    requires Inv(Told(head))
    ensures Inv(Refused(head))
    ensures After(Told(head), [Decide(Err(REFUSED))] + ([Deliver] + rest)) == After(Refused(head), rest)
  {
    AfterFirst(Told(head), Decide(Err(REFUSED)), [Deliver] + rest);
    AfterFirst(Next(Told(head), Decide(Err(REFUSED))), Deliver, rest);
  }

  lemma RefusalRead(head: Headers)
    requires Inv(Refused(head))
    ensures Enabled(Refused(head), PollBody(Pending))
    ensures var t := Next(Refused(head), PollBody(Pending));
      t.caller == Answered(Streaming(head)) && t.produced == [] && t.read == [Trailers(Rewritten(Err(REFUSED)))]
  {
  }

  lemma RefusalReached(head: Headers)
    requires Inv(Told(head))
    ensures After(Told(head), Refusal()).Some?
    ensures var t := After(Told(head), Refusal()).value;
      t.caller == Answered(Streaming(head)) && t.produced == [] && t.read == [Trailers(Rewritten(Err(REFUSED)))]
  {
    RefusedReached(head, [PollBody(Pending)] + []);
    RefusalRead(head);
    AfterFirst(Refused(head), PollBody(Pending), []);
  }

  /**
   Only the closing item is the verdict's: a head that says OK goes to the caller before the
   chain has decided anything, and what closes the stream after it may be a refusal.
   */
  lemma HeadsCanSayOtherwise(head: Headers)
    requires head.status == Some(OK)
    ensures Reached(0, Overruled(head)).Some?
    ensures var t := Reached(0, Overruled(head)).value;
      && t.caller == Answered(Streaming(head))
      && t.produced == [] && t.read == [Trailers(Rewritten(Err(REFUSED)))]
      && ClosingCode(t.read[0]) == PERMISSION_DENIED
  {
    StreamedReached(head, [PollBody(End)] + ([EndArrives] + Refusal()));
    ToldReached(head, Refusal());
    RefusalReached(head);
  }
}
