/**
 Retries of cache operations that may safely be repeated.
 */
module Retry {
  import opened Results

  datatype CacheError = NotFound | Failure(message: string)

  /**
   One try of an operation: its result, and everything it leaves behind. What the backend
   holds, the destination it reads into and how often it was called are all part of `S`.
   */
  type Attempt<!S, !T> = S -> (Result<T, CacheError>, S)

  /** A result no further try could better. */
  predicate Settled<T>(result: Result<T, CacheError>) {
    result.Ok? || result.error.NotFound?
  }

  /** Up to `n` tries, and always one. */
  function Tried<S, T>(op: Attempt<S, T>, n: nat, s: S): (Result<T, CacheError>, S) {
    var (result, after) := op(s);
    if Settled(result) || n <= 1 then (result, after) else Tried(op, n - 1, after)
  }

  /** How many tries that takes. */
  function Tries<S, T>(op: Attempt<S, T>, n: nat, s: S): nat {
    var (result, after) := op(s);
    if Settled(result) || n <= 1 then 1 else 1 + Tries(op, n - 1, after)
  }

  /** The state after `k` tries, whatever they answered. */
  function StateAfter<S, T>(op: Attempt<S, T>, s: S, k: nat): S {
    if k == 0 then s else StateAfter(op, op(s).1, k - 1)
  }

  function AtLeastOne(n: nat): nat { if n == 0 then 1 else n }

  /**
   What comes out is the first settled result, or the last error when none of the tries
   settles; every try but the last failed in a way worth repeating.
   */
  lemma {:induction false} TriedExactly<S, T>(op: Attempt<S, T>, n: nat, s: S)
    ensures var k := Tries(op, n, s);
      && 1 <= k <= AtLeastOne(n)
      && Tried(op, n, s) == op(StateAfter(op, s, k - 1))
      && Tried(op, n, s).1 == StateAfter(op, s, k)
      && (forall j | 0 <= j < k - 1 :: !Settled(op(StateAfter(op, s, j)).0))
      && (k < AtLeastOne(n) ==> Settled(Tried(op, n, s).0))
    decreases n
  {
    var (result, after) := op(s);
    assert StateAfter(op, s, 0) == s && StateAfter(op, s, 1) == after;
    if !Settled(result) && n > 1 {
      TriedExactly(op, n - 1, after);
      var k := Tries(op, n - 1, after);
      forall j | 0 <= j < k ensures !Settled(op(StateAfter(op, s, j)).0) {
        if j > 0 { assert StateAfter(op, s, j) == StateAfter(op, after, j - 1); }
      }
    }
  }

  /** Trying on where a batch of tries left off is one longer batch. */
  lemma {:induction false} TriesAdd<S, T>(op: Attempt<S, T>, a: nat, b: nat, s: S)
    requires a >= 1 && b >= 1
    ensures Tried(op, a + b, s) ==
      var (result, after) := Tried(op, a, s);
      if Settled(result) then (result, after) else Tried(op, b, after)
    decreases a
  {
    if a > 1 { TriesAdd(op, a - 1, b, op(s).1); }
  }

  /** A retried operation as an operation. */
  function Retried<S, T>(op: Attempt<S, T>, n: nat): Attempt<S, T> {
    s => Tried(op, n, s)
  }

  /** Retrying what is itself retried is one retry of as many tries as the two multiply to. */
  lemma {:induction false} NestedRetriesMultiply<S, T>(op: Attempt<S, T>, n: nat, m: nat, s: S)
    ensures Tried(Retried(op, m), n, s) == Tried(op, AtLeastOne(n) * AtLeastOne(m), s)
    decreases n
  {
    TriedOnce(op, m, s);
    var inner := AtLeastOne(m);
    if n > 1 {
      assert AtLeastOne(n) * inner == inner + (n - 1) * inner;
      assert (n - 1) * inner >= 1 by { AtLeast(n - 1, inner); }
      TriesAdd(op, inner, (n - 1) * inner, s);
      var (result, after) := Tried(op, m, s);
      if !Settled(result) { NestedRetriesMultiply(op, n - 1, m, after); }
    }
  }

  lemma TriedOnce<S, T>(op: Attempt<S, T>, m: nat, s: S)
    ensures Tried(op, m, s) == Tried(op, AtLeastOne(m), s)
  {
  }

  lemma {:induction false} AtLeast(a: nat, b: nat)
    requires a >= 1 && b >= 1
    ensures a * b >= 1
  {
  }

  // ---------------------------------------------------------------- delays

  /** A duration in nanoseconds, up to the longest there is. */
  const MAX_DURATION := 0x1_0000_0000_0000_0000 * 1_000_000_000 - 1

  type Duration = d: nat | d <= MAX_DURATION

  function Capped(d: nat): Duration {
    if d > MAX_DURATION then MAX_DURATION else d
  }

  function Pow2(k: nat): nat {
    if k == 0 then 1 else 2 * Pow2(k - 1)
  }

  /** `d` doubled `k` times over. */
  function Doubled(d: nat, k: nat): nat {
    if k == 0 then d else 2 * Doubled(d, k - 1)
  }

  lemma TwiceTheProduct(d: nat, p: nat)
    ensures d * (2 * p) == 2 * (d * p)
  {
    assert d * (p + p) == d * p + d * p;
  }

  lemma OneLess(d: nat, p: nat)
    requires p >= 1
    ensures d * p - d == d * (p - 1)
  {
    assert d * (p - 1 + 1) == d * (p - 1) + d * 1;
  }

  lemma {:induction false} PowersAreOneOrMore(k: nat)
    ensures Pow2(k) >= 1
  {
    if k > 0 { PowersAreOneOrMore(k - 1); }
  }

  lemma {:induction false} DoubledIsPower(d: nat, k: nat)
    ensures Doubled(d, k) == d * Pow2(k)
    decreases k
  {
    if k > 0 {
      DoubledIsPower(d, k - 1);
      TwiceTheProduct(d, Pow2(k - 1));
    }
  }

  function Sum(delays: seq<Duration>): nat {
    if delays == [] then 0 else Sum(delays[..|delays| - 1]) + delays[|delays| - 1]
  }

  /** Delays that double from `backoff` and stop at the longest there is. */
  ghost predicate Doubles(delays: seq<Duration>, backoff: Duration) {
    forall k | 0 <= k < |delays| :: delays[k] == Capped(Doubled(backoff, k))
  }

  lemma CappedDoubles(d: nat)
    ensures Capped(2 * Capped(d)) == Capped(2 * d)
  {
  }

  /** They add up to one short of the next doubling exactly while none of them is capped, and to less after that. */
  lemma {:induction false} DelaysAddUp(delays: seq<Duration>, backoff: Duration)
    requires Doubles(delays, backoff)
    ensures Sum(delays) <= Doubled(backoff, |delays|) - backoff
    ensures Sum(delays) == Doubled(backoff, |delays|) - backoff
       <==> delays == [] || Doubled(backoff, |delays| - 1) <= MAX_DURATION
    decreases |delays|
  {
    if delays != [] { DelaysAddUp(delays[..|delays| - 1], backoff); }
  }

  /** The same as a power of two, for the delays of `calls` tries. */
  lemma SleepOfACall(delays: seq<Duration>, backoff: Duration, calls: nat)
    requires Doubles(delays, backoff) && calls >= 1 && |delays| == calls - 1
    requires calls >= 2 ==> backoff * Pow2(calls - 2) <= MAX_DURATION
    ensures Sum(delays) == backoff * (Pow2(calls - 1) - 1)
  {
    DelaysAddUp(delays, backoff);
    DoubledIsPower(backoff, calls - 1);
    if calls >= 2 { DoubledIsPower(backoff, calls - 2); }
    PowersAreOneOrMore(calls - 1);
    OneLess(backoff, Pow2(calls - 1));
  }

  /** `RetrySchedule`. */
  class RetrySchedule {
    var remaining: nat
    var wait: Duration

    constructor (attempts: nat, backoff: Duration)
      ensures remaining == attempts && wait == backoff
    {
      remaining, wait := attempts, backoff;
    }

    /** `after_failure`: the next delay, or the error again when there is to be no next try. */
    method AfterFailure(error: CacheError) returns (next: Result<Duration, CacheError>)
      modifies this
      ensures remaining == if old(remaining) == 0 then 0 else old(remaining) - 1
      ensures next.Err? <==> error.NotFound? || old(remaining) <= 1
      ensures next.Err? ==> next.error == error && wait == old(wait)
      ensures next.Ok? ==> next.value == old(wait) && wait == Capped(2 * old(wait))
    {
      remaining := if remaining == 0 then 0 else remaining - 1;
      if error.NotFound? || remaining == 0 { return Err(error); }
      next := Ok(wait);
      wait := Capped(2 * wait);
    }
  }

  /** `retry`, and `get` with its destination in the state: the loop, and the delays it sleeps for. */
  method RetryLoop<S, T>(op: Attempt<S, T>, attempts: nat, backoff: Duration, start: S)
    returns (result: Result<T, CacheError>, end: S, delays: seq<Duration>)
    ensures (result, end) == Tried(op, attempts, start)
    ensures |delays| == Tries(op, attempts, start) - 1 && Doubles(delays, backoff)
  {
    var schedule := new RetrySchedule(attempts, backoff);
    end, delays := start, [];
    while true
      invariant fresh(schedule)
      invariant attempts > 0 ==> schedule.remaining >= 1
      invariant schedule.remaining + |delays| == attempts
      invariant schedule.wait == Capped(Doubled(backoff, |delays|)) && Doubles(delays, backoff)
      invariant Tried(op, schedule.remaining, end) == Tried(op, attempts, start)
      invariant Tries(op, schedule.remaining, end) + |delays| == Tries(op, attempts, start)
      decreases schedule.remaining
    {
      var (answer, after) := op(end);
      match answer {
        case Ok(value) => return Ok(value), after, delays;
        case Err(error) =>
          var next := schedule.AfterFailure(error);
          if next.Err? { return Err(next.error), after, delays; }
          CappedDoubles(Doubled(backoff, |delays|));
          delays := delays + [next.value];
          end := after;
      }
    }
  }

  // ---------------------------------------------------------------- documents

  datatype Operation = Create(value: string) | Get(id: string) | Update(id: string, value: string) | Delete(id: string)
                     | Keys | List | Ttl(id: string)

  /** A document over a backend in state `S`. */
  type Document<!S, !T> = Operation -> Attempt<S, T>

  /** What may be repeated: everything but the two writes. */
  predicate Repeatable(op: Operation) {
    !op.Create? && !op.Update?
  }

  /** `with_retry`. */
  function WithRetry<S, T>(document: Document<S, T>, attempts: nat): Document<S, T> {
    if attempts <= 1 then document
    else op => if Repeatable(op) then Retried(document(op), attempts) else document(op)
  }

  /** A document retried twice over is a document retried once, for every operation on it. */
  lemma RetriedDocumentsCollapse<S, T>(document: Document<S, T>, n: nat, m: nat, op: Operation, s: S)
    ensures WithRetry(WithRetry(document, m), n)(op)(s)
         == WithRetry(document, AtLeastOne(n) * AtLeastOne(m))(op)(s)
  {
    var a, b := AtLeastOne(n), AtLeastOne(m);
    if n <= 1 {
      assert a * b == b;
    } else if m <= 1 {
      assert a * b == a;
    } else {
      Product(a, b);
      assert Repeatable(op) ==> WithRetry(document, m)(op) == Retried(document(op), m);
      NestedRetriesMultiply(document(op), n, m, s);
    }
  }

  lemma Product(a: nat, b: nat)
    requires a > 1 && b > 1
    ensures a * b > 1
  {
    AtLeast(a - 1, b);
    assert a * b == (a - 1) * b + b;
  }

  /** A write goes to the backend once, however it is wrapped. */
  lemma WritesGoOnce<S, T>(document: Document<S, T>, n: nat, m: nat, op: Operation, s: S)
    requires !Repeatable(op)
    ensures WithRetry(WithRetry(document, m), n)(op)(s) == document(op)(s)
  {
  }
}
