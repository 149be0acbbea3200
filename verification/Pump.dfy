/**
 The bounded stream between a streaming handler and the tool that reads it, and the pump that
 fills one from a stream a handler returned.
 */
module InProcessStream {
  import opened Results

  const CAPACITY := 16

  // ---------------------------------------------------------------- the stream

  datatype SendPoll = Sent | Refused(reason: string) | Full

  datatype RecvPoll<T> = Received(message: T) | Waiting | Ended

  /** One end of a stream with its own sender, a receiver and the token that gives up on it. */
  class ServerStream<T> {
    var tx: bool
    var clones: nat
    var queue: seq<T>
    var cancelled: bool
    /** Everything taken in, and how much of it has been handed out. */
    ghost var accepted: seq<T>
    ghost var read: nat

    /** What was taken in comes out in its order, and never more than the capacity waits. */
    ghost predicate Valid()
      reads this
    {
      && |queue| <= CAPACITY
      && read + |queue| == |accepted|
      && accepted[read..] == queue
    }

    constructor ()
      ensures Valid() && tx && clones == 0 && !cancelled && accepted == [] && read == 0
    {
      tx, clones, queue, cancelled := true, 0, [], false;
      accepted, read := [], 0;
    }

    /** `sender`: a handle of its own for a producer, unless the stream was closed. */
    method Sender() returns (handle: bool)
      requires Valid()
      modifies this`clones
      ensures Valid() && handle == tx && clones == old(clones) + if handle then 1 else 0
    {
      handle := tx;
      if handle { clones := clones + 1; }
    }

    /** A producer lets go of its handle. */
    method DropSender()
      requires Valid() && clones > 0
      modifies this`clones
      ensures Valid() && clones == old(clones) - 1
    {
      clones := clones - 1;
    }

    /** One poll of `send`. A closed or cancelled stream refuses even with room to spare. */
    method PollSend(message: T) returns (poll: SendPoll)
      requires Valid()
      modifies this`queue, this`accepted
      ensures Valid()
      ensures poll.Sent? <==> tx && !cancelled && |old(queue)| < CAPACITY
      ensures poll.Full? <==> tx && !cancelled && |old(queue)| == CAPACITY
      ensures accepted == if poll.Sent? then old(accepted) + [message] else old(accepted)
      ensures poll.Refused? ==> poll.reason == if tx then "stream cancelled" else "stream closed"
    {
      if !tx { return Refused("stream closed"); }
      if cancelled { return Refused("stream cancelled"); }
      if |queue| == CAPACITY { return Full; }
      queue, accepted := queue + [message], accepted + [message];
      poll := Sent;
    }

    /** One poll of `recv`. It ends only once every sender is gone and the queue is drained. */
    method PollRecv() returns (poll: RecvPoll<T>)
      requires Valid()
      modifies this`queue, this`read
      ensures Valid()
      ensures poll.Received? <==> old(read) < |accepted|
      ensures poll.Received? ==> poll.message == accepted[old(read)] && read == old(read) + 1
      ensures !poll.Received? ==> read == old(read)
      ensures poll.Ended? <==> read == old(read) == |accepted| && !tx && clones == 0
    {
      if queue != [] {
        poll := Received(queue[0]);
        queue, read := queue[1..], read + 1;
      } else {
        poll := if tx || clones > 0 then Waiting else Ended;
      }
    }

    /** `close`: nothing more from this handle; what is queued can still be read. */
    method Close()
      requires Valid()
      modifies this`tx
      ensures Valid() && !tx
    {
      tx := false;
    }
  }

  // ---------------------------------------------------------------- the pump

  datatype Status = Status(code: nat, message: string)

  type Item<M> = Result<M, Status>

  /** Where the pump's loop stands: in its select, in a send, or returned, and why. */
  datatype Pump<M> = Selecting | Sending(item: Item<M>) | Returned(why: Why)

  datatype Why = AtTheEnd | AfterAnError | OnCancel | Unread

  /** `source` is what the stream being pumped yields before it ends. */
  datatype State<M> = State(
    source: seq<Item<M>>,
    taken: nat,
    pump: Pump<M>,
    queue: seq<Item<M>>,
    received: seq<Item<M>>,
    cancelled: bool,
    dropped: bool)

  datatype Label =
    | Pull        // the select takes the source's next item
    | SourceEnds  // or its end
    | SeeCancel   // or the cancellation
    | Deliver     // the send finds room
    | SendFails   // or the receiver gone
    | Read        // the tool receives
    | Cancel      // somebody fires the token
    | DropStream  // the tool lets go of the stream

  function Start<M>(source: seq<Item<M>>): State<M> {
    State(source, 0, Selecting, [], [], false, false)
  }

  predicate Enabled<M>(s: State<M>, l: Label) {
    match l
    case Pull => s.pump.Selecting? && s.taken < |s.source|
    case SourceEnds => s.pump.Selecting? && s.taken == |s.source|
    case SeeCancel => s.pump.Selecting? && s.cancelled
    case Deliver => s.pump.Sending? && !s.dropped && |s.queue| < CAPACITY
    case SendFails => s.pump.Sending? && s.dropped
    case Read => !s.dropped && s.queue != []
    case Cancel => !s.cancelled
    case DropStream => !s.dropped
  }

  function Next<M>(s: State<M>, l: Label): State<M>
    requires Enabled(s, l)
  {
    match l
    case Pull => s.(taken := s.taken + 1, pump := Sending(s.source[s.taken]))
    case SourceEnds => s.(pump := Returned(AtTheEnd))
    case SeeCancel => s.(pump := Returned(OnCancel))
    case Deliver =>
      s.(queue := s.queue + [s.pump.item],
         pump := if s.pump.item.Err? then Returned(AfterAnError) else Selecting)
    case SendFails => s.(pump := Returned(Unread))
    case Read => s.(queue := s.queue[1..], received := s.received + [s.queue[0]])
    case Cancel => s.(cancelled := true)
    // The receiver goes, and whatever is queued with it.
    case DropStream => s.(dropped := true, queue := [])
  }

  /** The source up to and with its first error. */
  function Cut<M>(source: seq<Item<M>>): seq<Item<M>> {
    if source == [] then []
    else if source[0].Err? then [source[0]]
    else [source[0]] + Cut(source[1..])
  }

  /** Everything before the first error and, if there is one, the error. */
  lemma {:induction false} CutExactly<M>(source: seq<Item<M>>)
    ensures Cut(source) <= source
    ensures forall k | 0 <= k < |Cut(source)| - 1 :: Cut(source)[k].Ok?
    ensures |Cut(source)| < |source| ==> Cut(source) != [] && Cut(source)[|Cut(source)| - 1].Err?
    decreases |source|
  {
    if source != [] && source[0].Ok? { CutExactly(source[1..]); }
  }

  /** What the tool has, what waits for it, and what is on the way, in that order. */
  function Passed<M>(s: State<M>): seq<Item<M>> {
    s.received + s.queue + if s.pump.Sending? then [s.pump.item] else []
  }

  /** What holds in every state of every run. */
  ghost predicate Inv<M>(s: State<M>) {
    && s.taken <= |s.source|
    && |s.queue| <= CAPACITY
    && (s.pump.Sending? ==> s.taken > 0 && s.pump.item == s.source[s.taken - 1])
    && (!s.dropped ==> Passed(s) == s.source[..s.taken] || (s.pump == Returned(Unread)))
    && (s.dropped ==> s.queue == [] && s.received <= s.source[..s.taken])
    && (forall k | 0 <= k < s.taken - 1 :: s.source[k].Ok?)
    && (s.pump.Selecting? && s.taken > 0 ==> s.source[s.taken - 1].Ok?)
    && (s.pump == Returned(AtTheEnd) ==> s.taken == |s.source| && (s.taken > 0 ==> s.source[s.taken - 1].Ok?))
    && (s.pump == Returned(AfterAnError) ==> s.taken > 0 && s.source[s.taken - 1].Err?)
    && (s.pump == Returned(OnCancel) ==> s.cancelled)
    && (s.pump == Returned(Unread) ==> s.dropped)
  }

  lemma StepKeepsInv<M>(s: State<M>, l: Label)
    requires Inv(s) && Enabled(s, l)
    ensures Inv(Next(s, l))
  {
    match l {
      case Pull => PullKeepsInv(s);
      case Deliver => assert Passed(Next(s, Deliver)) == Passed(s);
      case Read => assert Passed(Next(s, Read)) == Passed(s);
      case DropStream => assert s.received <= Passed(s);
      case _ =>
    }
  }

  lemma PullKeepsInv<M>(s: State<M>)
    requires Inv(s) && Enabled(s, Pull)
    ensures Inv(Next(s, Pull))
  {
    assert s.source[..s.taken + 1] == s.source[..s.taken] + [s.source[s.taken]];
    if !s.dropped { assert Passed(s) == s.received + s.queue; }
  }

  /** The state after a run, if it can happen. */
  function After<M>(s: State<M>, run: seq<Label>): Option<State<M>> {
    if run == [] then Some(s)
    else match After(s, run[..|run| - 1])
      case None => None
      case Some(t) => if Enabled(t, run[|run| - 1]) then Some(Next(t, run[|run| - 1])) else None
  }

  lemma AfterMore<M>(s: State<M>, run: seq<Label>, l: Label)
    requires After(s, run).Some? && Enabled(After(s, run).value, l)
    ensures After(s, run + [l]) == Some(Next(After(s, run).value, l))
  {
    assert (run + [l])[..|run|] == run;
  }

  lemma {:induction false} Reached<M>(source: seq<Item<M>>, run: seq<Label>)
    requires After(Start(source), run).Some?
    ensures Inv(After(Start(source), run).value) && After(Start(source), run).value.source == source
    decreases |run|
  {
    if run != [] {
      Reached(source, run[..|run| - 1]);
      StepKeepsInv(After(Start(source), run[..|run| - 1]).value, run[|run| - 1]);
    }
  }

  lemma {:induction false} CutOfPrefix<M>(source: seq<Item<M>>, n: nat)
    requires n <= |source| && forall k | 0 <= k < n - 1 :: source[k].Ok?
    ensures source[..n] <= Cut(source)
    ensures n > 0 && source[n - 1].Err? ==> source[..n] == Cut(source)
    ensures n == |source| ==> source[..n] == Cut(source)
    decreases n
  {
    if n > 0 && source[0].Ok? {
      CutOfPrefix(source[1..], n - 1);
      assert source[..n] == [source[0]] + source[1..][..n - 1];
    }
  }

  /**
   In every state of every run, what the tool has received, what waits for it and what is on
   the way together begin the source as cut after its first error; no more than the capacity
   waits, and an error is never followed by anything.
   */
  lemma AlwaysAPrefix<M>(source: seq<Item<M>>, run: seq<Label>)
    requires After(Start(source), run).Some?
    ensures var s := After(Start(source), run).value;
      && |s.queue| <= CAPACITY
      && s.received <= Cut(source)
      && (!s.dropped ==> Passed(s) <= Cut(source))
      && forall k | 0 <= k < |s.received| - 1 :: s.received[k].Ok?
  {
    var s := After(Start(source), run).value;
    Reached(source, run);
    CutOfPrefix(source, s.taken);
    assert !s.dropped ==> s.received <= Passed(s);
  }

  /** The tool reads the end: the queue is drained and the pump's sender is gone. */
  predicate ReadsEnd<M>(s: State<M>) {
    !s.dropped && s.queue == [] && s.pump.Returned?
  }

  /** A tool that reads an uncancelled stream to its end has the whole source up to its first error, and no more. */
  lemma ReadToTheEnd<M>(source: seq<Item<M>>, run: seq<Label>)
    requires After(Start(source), run).Some?
    ensures var s := After(Start(source), run).value;
      ReadsEnd(s) ==> s.received == Cut(source) || s.pump.why.OnCancel?
    ensures var s := After(Start(source), run).value;
      ReadsEnd(s) && !s.cancelled ==> s.received == Cut(source)
  {
    Reached(source, run);
    if ReadsEnd(After(Start(source), run).value) { ReadAll(After(Start(source), run).value); }
  }

  lemma ReadAll<M>(s: State<M>)
    requires Inv(s) && ReadsEnd(s)
    ensures s.received == Cut(s.source) || (s.pump.why.OnCancel? && s.cancelled)
  {
    CutOfPrefix(s.source, s.taken);
    assert s.received == Passed(s) == s.source[..s.taken];
    match s.pump.why {
      case AtTheEnd => assert s.source[..s.taken] == Cut(s.source);
      case AfterAnError => assert s.source[..s.taken] == Cut(s.source);
      case OnCancel => assert s.cancelled;
      case Unread => assert false;
    }
  }

  /** The pump and a tool that keeps reading. */
  const WORK := [Pull, SourceEnds, Deliver, Read]

  /** While it is kept a stream always has a step to take, until it has been read to its end. */
  lemma NeverStuck<M>(s: State<M>)
    requires Inv(s) && !s.dropped
    ensures ReadsEnd(s) || exists l :: l in WORK && Enabled(s, l)
  {
    if s.queue != [] {
      assert Enabled(s, WORK[3]);
    } else {
      match s.pump
      case Selecting => assert Enabled(s, WORK[if s.taken < |s.source| then 0 else 1]);
      case Sending(_) => assert Enabled(s, WORK[2]);
      case Returned(_) =>
    }
  }

  /** What is still to do: three steps for each item, one to return, and the two the outside has. */
  function Left<M>(s: State<M>): nat
    requires s.taken <= |s.source|
  {
    3 * (|s.source| - s.taken) + |s.queue|
    + (match s.pump case Selecting => 1 case Sending(_) => 3 case Returned(_) => 0)
    + (if s.cancelled then 0 else 1) + (if s.dropped then 0 else 1)
  }

  lemma EveryStepCounts<M>(s: State<M>, l: Label)
    requires Inv(s) && Enabled(s, l)
    ensures Left(Next(s, l)) < Left(s)
  {
  }

  /** No run is longer than three steps an item and three more. */
  lemma {:induction false} RunsAreBounded<M>(source: seq<Item<M>>, run: seq<Label>)
    requires After(Start(source), run).Some?
    ensures Inv(After(Start(source), run).value)
    ensures |run| + Left(After(Start(source), run).value) <= 3 * |source| + 3
    decreases |run|
  {
    Reached(source, run);
    if run != [] {
      RunsAreBounded(source, run[..|run| - 1]);
      Reached(source, run[..|run| - 1]);
      EveryStepCounts(After(Start(source), run[..|run| - 1]).value, run[|run| - 1]);
    }
  }

  lemma {:induction false} AfterConcat<M>(s: State<M>, a: seq<Label>, b: seq<Label>)
    ensures After(s, a + b) == match After(s, a) case None => None case Some(t) => After(t, b)
    decreases |b|
  {
    if b == [] {
      assert a + b == a;
    } else {
      assert (a + b)[..|a + b| - 1] == a + b[..|b| - 1];
      AfterConcat(s, a, b[..|b| - 1]);
    }
  }

  /** A step of work, where there is one: it keeps what holds, counts, and lets nobody go. */
  lemma WorkStep<M>(s: State<M>) returns (l: Label)
    requires Inv(s) && !s.dropped && !ReadsEnd(s)
    ensures Enabled(s, l) && Inv(Next(s, l)) && Left(Next(s, l)) < Left(s)
    ensures !Next(s, l).dropped && Next(s, l).cancelled == s.cancelled
  {
    NeverStuck(s);
    l :| l in WORK && Enabled(s, l);
    StepKeepsInv(s, l);
    EveryStepCounts(s, l);
  }

  lemma AfterFirst<M>(s: State<M>, l: Label, more: seq<Label>)
    requires Enabled(s, l)
    ensures After(s, [l] + more) == After(Next(s, l), more)
  {
    assert After(s, []) == Some(s);
    AfterMore(s, [], l);
    assert [] + [l] == [l];
    AfterConcat(s, [l], more);
  }

  lemma {:induction false} ReadsOn<M>(s: State<M>) returns (rest: seq<Label>)
    requires Inv(s) && !s.dropped
    ensures After(s, rest).Some? && ReadsEnd(After(s, rest).value)
    ensures After(s, rest).value.cancelled == s.cancelled
    decreases Left(s)
  {
    rest := [];
    if !ReadsEnd(s) {
      var l := WorkStep(s);
      var more := ReadsOn(Next(s, l));
      AfterFirst(s, l, more);
      rest := [l] + more;
    }
  }

  /** Whatever has happened, a stream still held can be read to its end, without being cancelled for it. */
  lemma CanBeReadToTheEnd<M>(source: seq<Item<M>>, run: seq<Label>) returns (rest: seq<Label>)
    requires After(Start(source), run).Some? && !After(Start(source), run).value.dropped
    ensures After(Start(source), run + rest).Some?
    ensures var s := After(Start(source), run + rest).value;
      ReadsEnd(s) && s.cancelled == After(Start(source), run).value.cancelled
  {
    Reached(source, run);
    rest := ReadsOn(After(Start(source), run).value);
    AfterConcat(Start(source), run, rest);
  }

  // ---------------------------------------------------------------- cancellation

  /** The pump can make a step of its own. */
  predicate PumpMoves<M>(s: State<M>) {
    || Enabled(s, Pull) || Enabled(s, SourceEnds) || Enabled(s, SeeCancel)
    || Enabled(s, Deliver) || Enabled(s, SendFails)
  }

  /**
   A cancelled pump stops by itself unless it is in a send that a full queue holds up: nobody
   reading and nobody letting go, the token does not reach it there.
   */
  lemma CancelledPumpIsHeldUpExactly<M>(source: seq<Item<M>>, run: seq<Label>)
    requires After(Start(source), run).Some? && After(Start(source), run).value.cancelled
    ensures var s := After(Start(source), run).value;
      !s.pump.Returned? && !PumpMoves(s) <==> s.pump.Sending? && |s.queue| == CAPACITY
  {
    Reached(source, run);
  }

  /** Nor need a cancelled pump stop before its source does: its select may go on taking the next item. */
  lemma CancelledPumpMayGoOn<M>(s: State<M>)
    requires s.cancelled && s.pump.Selecting? && s.taken < |s.source| && !s.dropped && |s.queue| < CAPACITY
    ensures Enabled(s, SeeCancel) && Enabled(s, Pull) && Enabled(Next(s, Pull), Deliver)
    ensures var t := Next(Next(s, Pull), Deliver);
      t.cancelled && t.queue == s.queue + [s.source[s.taken]] && (s.source[s.taken].Ok? ==> t.pump.Selecting?)
  {
  }

  function Repeated(n: nat): seq<Label> {
    if n == 0 then [] else Repeated(n - 1) + [Pull, Deliver]
  }

  /** A tool that stops reading, and cancels, and keeps the stream: the pump waits in its send. */
  lemma CancelCanBeIgnored()
    ensures var source := seq(CAPACITY + 1, _ => Ok(0));
      var run := Repeated(CAPACITY) + [Pull] + [Cancel];
      && After(Start<int>(source), run).Some?
      && var s := After(Start<int>(source), run).value;
         s.cancelled && !s.pump.Returned? && !PumpMoves(s)
  {
    var source: seq<Item<int>> := seq(CAPACITY + 1, _ => Ok(0));
    Fills(source, CAPACITY);
    AfterMore(Start(source), Repeated(CAPACITY), Pull);
    AfterMore(Start(source), Repeated(CAPACITY) + [Pull], Cancel);
  }

  /** Nobody has read or let go, and the first `n` items wait. */
  function Filled<M>(source: seq<Item<M>>, n: nat): State<M>
    requires n <= |source|
  {
    Start(source).(taken := n, queue := source[..n])
  }

  lemma FillsOne<M>(source: seq<Item<M>>, n: nat)
    requires n < CAPACITY && n < |source| && source[n].Ok?
    ensures Enabled(Filled(source, n), Pull) && Enabled(Next(Filled(source, n), Pull), Deliver)
    ensures Next(Next(Filled(source, n), Pull), Deliver) == Filled(source, n + 1)
  {
    assert source[..n + 1] == source[..n] + [source[n]];
  }

  lemma {:induction false} Fills<M>(source: seq<Item<M>>, n: nat)
    requires n <= CAPACITY && n <= |source| && forall k | 0 <= k < n :: source[k].Ok?
    ensures After(Start(source), Repeated(n)) == Some(Filled(source, n))
    decreases n
  {
    if n == 0 {
      assert source[..0] == [];
    } else {
      Fills(source, n - 1);
      FillsOne(source, n - 1);
      TwoMore(Start(source), Repeated(n - 1), Filled(source, n - 1), Pull, Deliver);
    }
  }

  lemma TwoMore<M>(s: State<M>, run: seq<Label>, t: State<M>, first: Label, second: Label)
    requires After(s, run) == Some(t) && Enabled(t, first) && Enabled(Next(t, first), second)
    ensures After(s, run + [first, second]) == Some(Next(Next(t, first), second))
  {
    AfterMore(s, run, first);
    AfterMore(s, run + [first], second);
    assert run + [first, second] == run + [first] + [second];
  }
}
