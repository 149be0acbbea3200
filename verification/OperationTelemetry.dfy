/**
 Operation guards: a gauge of what is in flight, and one record of how each operation ended,
 whether it was finished, dropped or unwound.
 */
module OperationTelemetry {
  import opened Results

  const U64_MAX := 0xFFFF_FFFF_FFFF_FFFF
  const I64_MAX := 0x7FFF_FFFF_FFFF_FFFF

  type U64 = n: nat | n <= U64_MAX

  datatype Outcome = Success | NotFound | Conflict | Unsupported | Invalid | Timeout | Cancelled | Panic | Closed | Failure

  datatype Labels = Labels(component: string, backend: string, operation: string)

  type Id = nat

  /** What the metrics are told: an operation began, or it ended and how. */
  datatype Event =
    | Started(id: Id, labels: Labels)
    | Completed(id: Id, labels: Labels, outcome: Outcome, read: U64, written: U64)

  // ---------------------------------------------------------------- what a log says

  predicate HasStarted(log: seq<Event>, id: Id) {
    log != [] && (HasStarted(log[..|log| - 1], id) || (log[|log| - 1].Started? && log[|log| - 1].id == id))
  }

  /** Operations in flight under `labels`. */
  function Live(log: seq<Event>, labels: Labels): set<Id> {
    if log == [] then {}
    else LiveAfter(Live(log[..|log| - 1], labels), log[|log| - 1], labels)
  }

  function LiveAfter(live: set<Id>, e: Event, labels: Labels): set<Id> {
    if e.labels != labels then live else if e.Started? then live + {e.id} else live - {e.id}
  }

  /** An event that may come next: a fresh id begins, or one in flight ends under the labels it began with. */
  predicate MayFollow(log: seq<Event>, e: Event) {
    match e
    case Started(id, _) => !HasStarted(log, id)
    case Completed(id, labels, _, _, _) => id in Live(log, labels)
  }

  /** Every event could follow those before it. */
  predicate WellFormed(log: seq<Event>) {
    log != [] ==> WellFormed(log[..|log| - 1]) && MayFollow(log[..|log| - 1], log[|log| - 1])
  }

  lemma LogMore(log: seq<Event>, e: Event)
    requires WellFormed(log) && MayFollow(log, e)
    ensures WellFormed(log + [e])
    ensures forall id: Id :: HasStarted(log + [e], id) <==> HasStarted(log, id) || (e.Started? && e.id == id)
    ensures forall labels :: Live(log + [e], labels) == LiveAfter(Live(log, labels), e, labels)
  {
    assert (log + [e])[..|log|] == log;
  }

  /** Only what has started is in flight, and under one set of labels. */
  lemma {:induction false} LiveHasStarted(log: seq<Event>, id: Id, a: Labels, b: Labels)
    requires WellFormed(log) && id in Live(log, a)
    ensures HasStarted(log, id)
    ensures id in Live(log, b) ==> a == b
    decreases |log|
  {
    if log != [] {
      var before, e := log[..|log| - 1], log[|log| - 1];
      assert log == before + [e];
      LogMore(before, e);
      if id in Live(before, a) { LiveHasStarted(before, id, a, b); }
      if id in Live(before, b) { LiveHasStarted(before, id, b, a); }
    }
  }

  /** One id, one end: what has completed is not in flight and cannot complete again. */
  lemma {:induction false} CompletedOnce(log: seq<Event>, j: nat, k: nat)
    requires WellFormed(log) && j < k < |log| && log[j].Completed? && log[k].Completed?
    ensures log[j].id != log[k].id
    decreases |log|
  {
    var before := log[..|log| - 1];
    if k < |log| - 1 {
      CompletedOnce(before, j, k);
    } else {
      CompletedIsOver(before, j, log[k].labels);
    }
  }

  lemma {:induction false} CompletedIsOver(log: seq<Event>, j: nat, labels: Labels)
    requires WellFormed(log) && j < |log| && log[j].Completed?
    ensures log[j].id !in Live(log, labels) && HasStarted(log, log[j].id)
    decreases |log|
  {
    var before, e := log[..|log| - 1], log[|log| - 1];
    assert log == before + [e];
    LogMore(before, e);
    if j < |log| - 1 {
      CompletedIsOver(before, j, labels);
      assert before[j] == log[j];
    } else {
      LiveHasStarted(before, e.id, e.labels, labels);
    }
  }

  // ---------------------------------------------------------------- what the instruments read

  /** What the gauge shows for `labels`: every addition to it, added up. */
  function Gauge(log: seq<Event>, labels: Labels): int {
    if log == [] then 0
    else Gauge(log[..|log| - 1], labels) + Change(log[|log| - 1], labels)
  }

  function Change(e: Event, labels: Labels): int {
    if e.labels != labels then 0 else if e.Started? then 1 else -1
  }

  /** What the counter shows for `labels` and `outcome`. */
  function Count(log: seq<Event>, labels: Labels, outcome: Outcome): nat {
    if log == [] then 0
    else Count(log[..|log| - 1], labels, outcome) + Tally(log[|log| - 1], labels, outcome)
  }

  function Tally(e: Event, labels: Labels, outcome: Outcome): nat {
    if e.Completed? && e.labels == labels && e.outcome == outcome then 1 else 0
  }

  function StartedCount(log: seq<Event>, labels: Labels): nat {
    if log == [] then 0
    else
      StartedCount(log[..|log| - 1], labels)
      + if log[|log| - 1].Started? && log[|log| - 1].labels == labels then 1 else 0
  }

  const OUTCOMES := [Success, NotFound, Conflict, Unsupported, Invalid, Timeout, Cancelled, Panic, Closed, Failure]

  function Total(log: seq<Event>, labels: Labels, outcomes: seq<Outcome>): nat {
    if outcomes == [] then 0 else Count(log, labels, outcomes[0]) + Total(log, labels, outcomes[1..])
  }

  /** The gauge is the number in flight, whatever ended and however it did. */
  lemma {:induction false} GaugeIsLive(log: seq<Event>, labels: Labels)
    requires WellFormed(log)
    ensures Gauge(log, labels) == |Live(log, labels)|
    decreases |log|
  {
    if log != [] {
      var before, e := log[..|log| - 1], log[|log| - 1];
      assert log == before + [e];
      GaugeIsLive(before, labels);
      LogMore(before, e);
      if e.Started? && e.id in Live(before, labels) { LiveHasStarted(before, e.id, labels, labels); }
    }
  }

  lemma {:induction false} TotalMore(before: seq<Event>, e: Event, labels: Labels, outcomes: seq<Outcome>)
    requires forall j, k | 0 <= j < k < |outcomes| :: outcomes[j] != outcomes[k]
    ensures Total(before + [e], labels, outcomes) == Total(before, labels, outcomes)
      + if e.Completed? && e.labels == labels && e.outcome in outcomes then 1 else 0
    decreases |outcomes|
  {
    if outcomes != [] {
      assert (before + [e])[..|before|] == before;
      TotalMore(before, e, labels, outcomes[1..]);
      assert outcomes == [outcomes[0]] + outcomes[1..];
    }
  }

  /** Everything that began under `labels` is in flight or was counted once, under one outcome. */
  lemma {:induction false} StartsAreConserved(log: seq<Event>, labels: Labels)
    requires WellFormed(log)
    ensures StartedCount(log, labels) == |Live(log, labels)| + Total(log, labels, OUTCOMES)
    decreases |log|
  {
    if log == [] {
      NothingCounted(labels, OUTCOMES);
    } else {
      var before, e := log[..|log| - 1], log[|log| - 1];
      assert log == before + [e];
      StartsAreConserved(before, labels);
      LogMore(before, e);
      TotalMore(before, e, labels, OUTCOMES);
      if e.Completed? { EveryOutcomeIsListed(e.outcome); }
      if e.Started? && e.id in Live(before, labels) { LiveHasStarted(before, e.id, labels, labels); }
    }
  }

  lemma EveryOutcomeIsListed(outcome: Outcome)
    ensures outcome in OUTCOMES
  {
    var k := match outcome
      case Success => 0 case NotFound => 1 case Conflict => 2 case Unsupported => 3 case Invalid => 4
      case Timeout => 5 case Cancelled => 6 case Panic => 7 case Closed => 8 case Failure => 9;
    assert OUTCOMES[k] == outcome;
  }

  lemma {:induction false} NothingCounted(labels: Labels, outcomes: seq<Outcome>)
    ensures Total([], labels, outcomes) == 0
    decreases |outcomes|
  {
    if outcomes != [] { NothingCounted(labels, outcomes[1..]); }
  }

  // ---------------------------------------------------------------- the guards

  function Reading(active: map<Labels, int>, labels: Labels): int {
    if labels in active then active[labels] else 0
  }

  function Counted(count: map<(Labels, Outcome), nat>, labels: Labels, outcome: Outcome): nat {
    if (labels, outcome) in count then count[(labels, outcome)] else 0
  }

  ghost predicate GaugeShows(active: map<Labels, int>, log: seq<Event>) {
    forall labels :: Reading(active, labels) == Gauge(log, labels)
  }

  ghost predicate CountShows(count: map<(Labels, Outcome), nat>, log: seq<Event>) {
    forall labels, outcome :: Counted(count, labels, outcome) == Count(log, labels, outcome)
  }

  lemma GaugeMoves(active: map<Labels, int>, log: seq<Event>, e: Event)
    requires GaugeShows(active, log)
    ensures GaugeShows(active[e.labels := Reading(active, e.labels) + Change(e, e.labels)], log + [e])
  {
    assert (log + [e])[..|log|] == log;
    var moved := active[e.labels := Reading(active, e.labels) + Change(e, e.labels)];
    forall labels ensures Reading(moved, labels) == Gauge(log + [e], labels) {
      assert Gauge(log + [e], labels) == Gauge(log, labels) + Change(e, labels);
      assert Reading(active, labels) == Gauge(log, labels);
    }
  }

  lemma CountMoves(count: map<(Labels, Outcome), nat>, log: seq<Event>, e: Event)
    requires CountShows(count, log)
    ensures e.Started? ==> CountShows(count, log + [e])
    ensures e.Completed? ==>
      CountShows(count[(e.labels, e.outcome) := Counted(count, e.labels, e.outcome) + 1], log + [e])
  {
    assert (log + [e])[..|log|] == log;
    forall labels, outcome
      ensures Count(log + [e], labels, outcome) == Counted(count, labels, outcome) + Tally(e, labels, outcome)
    {
      assert Counted(count, labels, outcome) == Count(log, labels, outcome);
    }
  }

  /** Every id handed out so far is below `nextId`. */
  ghost predicate Below(log: seq<Event>, nextId: Id) {
    forall id: Id :: HasStarted(log, id) ==> id < nextId
  }

  /** The instruments every operation of a component shares, as the values they show. */
  class Metrics {
    var active: map<Labels, int>
    var count: map<(Labels, Outcome), nat>
    var nextId: Id
    ghost var log: seq<Event>

    /** The instruments show what the log adds up to. */
    ghost predicate Valid()
      reads this
    {
      WellFormed(log) && Below(log, nextId) && GaugeShows(active, log) && CountShows(count, log)
    }

    constructor ()
      ensures Valid() && log == []
    {
      active, count, nextId, log := map[], map[], 0, [];
    }

    /** `start_linked`, as far as the gauge goes. */
    method Start(labels: Labels) returns (id: Id)
      requires Valid()
      modifies this
      ensures Valid() && !HasStarted(old(log), id) && log == old(log) + [Started(id, labels)]
    {
      id := nextId;
      nextId := nextId + 1;
      ghost var e := Started(id, labels);
      LogMore(log, e);
      GaugeMoves(active, log, e);
      CountMoves(count, log, e);
      active := active[labels := Reading(active, labels) + 1];
      log := log + [e];
    }

    /** What `complete` tells the instruments. */
    method Complete(id: Id, labels: Labels, outcome: Outcome, read: U64, written: U64)
      requires Valid() && id in Live(log, labels)
      modifies this
      ensures Valid() && log == old(log) + [Completed(id, labels, outcome, read, written)]
    {
      ghost var e := Completed(id, labels, outcome, read, written);
      LogMore(log, e);
      GaugeMoves(active, log, e);
      CountMoves(count, log, e);
      active := active[labels := Reading(active, labels) - 1];
      count := count[(labels, outcome) := Counted(count, labels, outcome) + 1];
      log := log + [e];
    }
  }

  /** What an operation's own fields owe the log: it began, and is in flight exactly until it is finished. */
  ghost predicate Guards(log: seq<Event>, id: Id, labels: Labels, finished: bool) {
    HasStarted(log, id) && (id in Live(log, labels) <==> !finished)
  }

  /** What becomes of one operation is nothing to another. */
  lemma OthersAreUntouched(log: seq<Event>, e: Event, id: Id, labels: Labels, finished: bool)
    requires WellFormed(log) && MayFollow(log, e) && Guards(log, id, labels, finished) && e.id != id
    ensures Guards(log + [e], id, labels, finished)
  {
    LogMore(log, e);
  }

  /** A row count as it is added to: it stops at the largest it can hold. */
  function Saturating(count: U64, rows: nat): U64 {
    if count + rows > U64_MAX then U64_MAX else count + rows
  }

  function Sum(rows: seq<nat>): nat {
    if rows == [] then 0 else Sum(rows[..|rows| - 1]) + rows[|rows| - 1]
  }

  /** The true count, or the largest one when that is smaller. */
  function Capped(n: nat): U64 {
    if n > U64_MAX then U64_MAX else n
  }

  /** `records_read` and `records_written` as the log line carries them: an `i64`, by truncation. */
  function AsI64(n: U64): int {
    if n <= I64_MAX then n else n - U64_MAX - 1
  }

  /** The logged count is the count exactly while it fits; past that it is negative. */
  lemma LoggedCountExactly(n: U64)
    ensures AsI64(n) == n <==> n <= I64_MAX
    ensures n > I64_MAX <==> AsI64(n) < 0
    ensures (AsI64(n) - n) % (U64_MAX + 1) == 0
  {
    assert n > I64_MAX ==> AsI64(n) - n == -1 * (U64_MAX + 1);
  }

  /** An operation in flight. */
  class Operation {
    const metrics: Metrics?
    const id: Id
    const labels: Labels
    var finished: bool
    var read: U64
    var written: U64
    ghost var readCalls: seq<nat>
    ghost var writeCalls: seq<nat>
    /** How it was reported, if it was: the last way it can be. */
    ghost var reported: seq<Outcome>

    ghost predicate Valid()
      reads this, if metrics != null then {metrics} else {}
    {
      && read == Capped(Sum(readCalls)) && written == Capped(Sum(writeCalls))
      && |reported| == (if finished then 1 else 0)
      && (metrics != null ==> metrics.Valid() && Guards(metrics.log, id, labels, finished))
    }

    /** `start_linked`. Without a meter there is nothing to count. */
    constructor (metrics: Metrics?, labels: Labels)
      requires metrics != null ==> metrics.Valid()
      modifies if metrics != null then {metrics} else {}
      ensures Valid() && !finished && read == written == 0 && this.metrics == metrics && this.labels == labels
      ensures metrics != null ==> !HasStarted(old(metrics.log), id) && metrics.log == old(metrics.log) + [Started(id, labels)]
    {
      this.metrics, this.labels := metrics, labels;
      finished, read, written := false, 0, 0;
      readCalls, writeCalls, reported := [], [], [];
      var id := 0;
      if metrics != null { id := metrics.Start(labels); }
      this.id := id;
      new;
      if metrics != null { LogMore(old(metrics.log), Started(id, labels)); }
    }

    method ReadRows(rows: nat)
      requires Valid()
      modifies this`read, this`readCalls
      ensures Valid() && readCalls == old(readCalls) + [rows]
    {
      read := Saturating(read, rows);
      assert (readCalls + [rows])[..|readCalls|] == readCalls;
      readCalls := readCalls + [rows];
    }

    method WrittenRows(rows: nat)
      requires Valid()
      modifies this`written, this`writeCalls
      ensures Valid() && writeCalls == old(writeCalls) + [rows]
    {
      written := Saturating(written, rows);
      assert (writeCalls + [rows])[..|writeCalls|] == writeCalls;
      writeCalls := writeCalls + [rows];
    }

    /** `complete`: the first report counts, with the rows so far, and no other does. */
    method Complete(outcome: Outcome)
      requires Valid()
      modifies this`finished, this`reported, if metrics != null then {metrics} else {}
      ensures Valid() && finished
      ensures reported == if old(finished) then old(reported) else [outcome]
      ensures metrics != null && old(finished) ==> metrics.log == old(metrics.log)
      ensures metrics != null && !old(finished) ==>
        metrics.log == old(metrics.log) + [Completed(id, labels, outcome, read, written)]
    {
      if finished { return; }
      finished, reported := true, [outcome];
      if metrics != null {
        LogMore(metrics.log, Completed(id, labels, outcome, read, written));
        metrics.Complete(id, labels, outcome, read, written);
      }
    }

    /** `Drop`: a cancellation, or a panic while the thread unwinds, unless it was finished. */
    method Drop(panicking: bool)
      requires Valid()
      modifies this`finished, this`reported, if metrics != null then {metrics} else {}
      ensures Valid() && finished
      ensures reported == if old(finished) then old(reported) else [if panicking then Panic else Cancelled]
      ensures metrics != null && old(finished) ==> metrics.log == old(metrics.log)
      ensures metrics != null && !old(finished) ==>
        metrics.log == old(metrics.log) + [Completed(id, labels, if panicking then Panic else Cancelled, read, written)]
    {
      Complete(if panicking then Panic else Cancelled);
    }

    /** `finish`: it completes the operation and lets go of it. */
    method Finish(outcome: Outcome, panicking: bool)
      requires Valid() && !finished
      modifies this`finished, this`reported, if metrics != null then {metrics} else {}
      ensures Valid() && finished && reported == [outcome]
      ensures metrics != null ==> metrics.log == old(metrics.log) + [Completed(id, labels, outcome, read, written)]
    {
      Complete(outcome);
      Drop(panicking);
    }
  }

  /** An operation that read one row more than a signed count holds is logged with a negative count. */
  method LogTooManyRows(labels: Labels) returns (logged: int)
    ensures logged == -I64_MAX - 1
  {
    var operation := new Operation(null, labels);
    operation.ReadRows(I64_MAX + 1);
    assert Sum([I64_MAX + 1]) == I64_MAX + 1 by { assert [I64_MAX + 1][..0] == []; }
    logged := AsI64(operation.read);
  }
}
