/** app/implementations/retry.py `with_backoff`: retry a provider call, and how long that can take. */
module Backoff {
  import opened Blocks

  type Seconds = x: real | x >= 0.0

  const INTERACTIVE_MAX_WAIT: Seconds := 8.0
  const MAX_SERVER_DELAY: Seconds := 65.0

  /** A failed call, as the code classifies it; `asked` is the wait the provider named in its message. */
  datatype Failure = Failure(limited: bool, retryable: bool, asked: Option<Seconds>)

  datatype Outcome<T> = Value(value: T) | Failed(failure: Failure)

  datatype Result<T> = Returned(value: T) | RateLimited(retryAfter: Option<Seconds>) | Raised(failure: Failure)

  /** A call of `with_backoff`. `spread` and `jitter` are the random numbers drawn after the n-th failure:
      the code draws the first from [0.5, 2] and the second from [0, 1). */
  datatype Policy = Policy(maxAttempts: int, baseDelay: Seconds, maxDelay: Seconds, interactive: bool, spread: nat -> real, jitter: nat -> real)

  ghost predicate Drawn(p: Policy) {
    forall n :: 0.5 <= p.spread(n) <= 2.0 && 0.0 <= p.jitter(n) < 1.0
  }

  /** `server_retry_after` for a rate limit. */
  function Requested(f: Failure): Option<Seconds> {
    if f.limited && f.asked.Some? then Some(if f.asked.value < MAX_SERVER_DELAY then f.asked.value else MAX_SERVER_DELAY) else None
  }

  function Doubled(n: nat): nat {
    if n == 0 then 1 else 2 * Doubled(n - 1)
  }

  /** Whether the failure of call `n` (counted from 1) reaches a waiting person as RateLimited at once. */
  predicate TooLongToWait(p: Policy, f: Failure, n: nat) {
    f.limited && p.interactive && (Requested(f).None? || Requested(f).value > INTERACTIVE_MAX_WAIT || n >= 2)
  }

  predicate GivesUp(p: Policy, f: Failure, n: nat) {
    TooLongToWait(p, f, n) || n >= p.maxAttempts || !f.retryable
  }

  /** How long the code sleeps after the failure of call `n`. */
  function Delay(p: Policy, f: Failure, n: nat): real
    requires n > 0
  {
    if Requested(f).Some? then Requested(f).value + p.spread(n)
    else
      var step := p.baseDelay * Doubled(n - 1) as real;
      (if step < p.maxDelay then step else p.maxDelay) * (0.5 + p.jitter(n))
  }

  /** The operation was called `calls` times and the code slept `sleeps` in between: every call before the last
      failed in a way worth retrying, and the last one returned or was given up on. */
  ghost predicate Episode<T(!new)>(p: Policy, operation: nat -> Outcome<T>, calls: nat, sleeps: seq<real>, r: Result<T>) {
    && calls > 0 && Retried(p, operation, calls, sleeps)
    && match operation(calls)
       case Value(v) => r == Returned(v)
       case Failed(f) => GivesUp(p, f, calls) && r == if f.limited then RateLimited(Requested(f)) else Raised(f)
  }

  ghost predicate Retried<T(!new)>(p: Policy, operation: nat -> Outcome<T>, calls: nat, sleeps: seq<real>) {
    && |sleeps| + 1 == calls
    && forall n :: 1 <= n < calls ==> SleptAfter(p, operation(n), n, sleeps[n - 1])
  }

  ghost predicate SleptAfter<T>(p: Policy, outcome: Outcome<T>, n: nat, slept: real) {
    outcome.Failed? && n > 0 && !GivesUp(p, outcome.failure, n) && slept == Delay(p, outcome.failure, n)
  }

  lemma OneMoreRetry<T(!new)>(p: Policy, operation: nat -> Outcome<T>, calls: nat, sleeps: seq<real>, slept: real)
    requires Retried(p, operation, calls, sleeps) && SleptAfter(p, operation(calls), calls, slept)
    ensures Retried(p, operation, calls + 1, sleeps + [slept])
  {
    hide SleptAfter;
  }

  /** The loop, for an operation whose n-th call ends as `operation(n)`. */
  method WithBackoff<T(!new)>(p: Policy, operation: nat -> Outcome<T>) returns (r: Result<T>, calls: nat, sleeps: seq<real>)
    ensures Episode(p, operation, calls, sleeps, r)
  {
    var attempt := 0;
    sleeps := [];
    assert Retried(p, operation, 1, sleeps);
    hide Retried, Doubled;
    while true
      invariant Retried(p, operation, attempt + 1, sleeps)
      invariant attempt > 0 ==> attempt < p.maxAttempts
      decreases p.maxAttempts - attempt
    {
      attempt := attempt + 1;
      match operation(attempt) {
        case Value(v) =>
          return Returned(v), attempt, sleeps;
        case Failed(f) =>
          var requested := Requested(f);
          if f.limited && p.interactive {
            if requested.None? || requested.value > INTERACTIVE_MAX_WAIT || attempt >= 2 {
              return RateLimited(requested), attempt, sleeps;
            }
          }
          if attempt >= p.maxAttempts || !f.retryable {
            if f.limited { return RateLimited(requested), attempt, sleeps; }
            return Raised(f), attempt, sleeps;
          }
          var delay;
          if requested.Some? {
            delay := requested.value + p.spread(attempt);
          } else {
            var step := p.baseDelay * Doubled(attempt - 1) as real;
            delay := if step < p.maxDelay then step else p.maxDelay;
            delay := delay * (0.5 + p.jitter(attempt));
          }
          OneMoreRetry(p, operation, attempt, sleeps, delay);
          sleeps := sleeps + [delay];
      }
    }
  }

  /** The operation is called at least once and at most `max(1, maxAttempts)` times. */
  lemma CallsBounded<T(!new)>(p: Policy, operation: nat -> Outcome<T>, calls: nat, sleeps: seq<real>, r: Result<T>)
    requires Episode(p, operation, calls, sleeps, r)
    ensures 1 <= calls && (calls == 1 || calls <= p.maxAttempts)
  {
    if calls > 1 {
      assert SleptAfter(p, operation(calls - 1), calls - 1, sleeps[calls - 2]);
    }
  }

  ghost predicate Stops<T>(p: Policy, outcome: Outcome<T>, n: nat) {
    outcome.Value? || GivesUp(p, outcome.failure, n)
  }

  /** The last call is the first that returns or is given up on. */
  lemma StopsAtTheFirst<T(!new)>(p: Policy, operation: nat -> Outcome<T>, calls: nat, sleeps: seq<real>, r: Result<T>)
    requires Episode(p, operation, calls, sleeps, r)
    ensures Stops(p, operation(calls), calls) && forall n :: 1 <= n < calls ==> !Stops(p, operation(n), n)
  {
    forall n | 1 <= n < calls ensures !Stops(p, operation(n), n) {
      assert SleptAfter(p, operation(n), n, sleeps[n - 1]);
    }
  }

  /** One outcome sequence and one series of random draws have one episode. */
  lemma EpisodeIsUnique<T(!new)>(p: Policy, operation: nat -> Outcome<T>, calls: nat, sleeps: seq<real>, r: Result<T>, calls': nat, sleeps': seq<real>, r': Result<T>)
    requires Episode(p, operation, calls, sleeps, r) && Episode(p, operation, calls', sleeps', r')
    ensures calls == calls' && sleeps == sleeps' && r == r'
  {
    StopsAtTheFirst(p, operation, calls, sleeps, r);
    StopsAtTheFirst(p, operation, calls', sleeps', r');
    assert calls == calls' by { hide Episode, Stops; }
    forall i | 0 <= i < |sleeps| ensures sleeps[i] == sleeps'[i] {
      assert SleptAfter(p, operation(i + 1), i + 1, sleeps[i]) && SleptAfter(p, operation(i + 1), i + 1, sleeps'[i]);
    }
  }

  function Total(sleeps: seq<real>): real {
    if sleeps == [] then 0.0 else Total(sleeps[..|sleeps| - 1]) + sleeps[|sleeps| - 1]
  }

  /** The longest one sleep can be. */
  function Longest(p: Policy): Seconds {
    var server: Seconds := MAX_SERVER_DELAY + 2.0;
    var backoff: Seconds := 1.5 * p.maxDelay;
    if server > backoff then server else backoff
  }

  lemma DelayBounds(p: Policy, f: Failure, n: nat)
    requires Drawn(p) && n > 0
    ensures 0.0 <= Delay(p, f, n) <= Longest(p)
    ensures Requested(f).Some? ==> Requested(f).value + 0.5 <= Delay(p, f, n) <= Requested(f).value + 2.0
  {
    assert 0.5 <= p.spread(n) <= 2.0 && 0.0 <= p.jitter(n) < 1.0;
    var step := p.baseDelay * Doubled(n - 1) as real;
    assert step >= 0.0;
    var capped := if step < p.maxDelay then step else p.maxDelay;
    Scale(capped, p.maxDelay, 0.5 + p.jitter(n));
  }

  lemma Scale(x: real, y: real, k: real)
    requires 0.0 <= x <= y && 0.0 <= k <= 1.5
    ensures 0.0 <= x * k <= 1.5 * y
  {
    assert x * k <= x * 1.5;
  }

  /** A wait the provider asked for (up to 65 s) is honoured: the code sleeps for it and 0.5 to 2 s more. */
  lemma ServerDelayHonoured<T(!new)>(p: Policy, operation: nat -> Outcome<T>, calls: nat, sleeps: seq<real>, r: Result<T>, n: nat)
    requires Episode(p, operation, calls, sleeps, r) && Drawn(p) && 1 <= n < calls
    requires operation(n).Failed? && operation(n).failure.limited && operation(n).failure.asked.Some?
    ensures var asked := operation(n).failure.asked.value;
      if asked <= 65.0 then asked + 0.5 <= sleeps[n - 1] <= asked + 2.0 else 65.5 <= sleeps[n - 1] <= 67.0
  {
    assert SleptAfter(p, operation(n), n, sleeps[n - 1]);
    DelayBounds(p, operation(n).failure, n);
  }

  lemma {:induction false} TotalBounded(sleeps: seq<real>, longest: Seconds)
    requires forall i :: 0 <= i < |sleeps| ==> sleeps[i] <= longest
    ensures Total(sleeps) <= |sleeps| as real * longest
  {
    if sleeps != [] {
      var n := |sleeps| - 1;
      TotalBounded(sleeps[..n], longest);
      assert (n + 1) as real * longest == n as real * longest + longest;
    }
  }

  /** In all, the code sleeps at most `maxAttempts - 1` times the longest delay, which with the default
      `max_delay` of 60 s is 90 s. */
  lemma TotalSleepBounded<T(!new)>(p: Policy, operation: nat -> Outcome<T>, calls: nat, sleeps: seq<real>, r: Result<T>)
    requires Episode(p, operation, calls, sleeps, r) && Drawn(p)
    ensures |sleeps| == calls - 1
    ensures Total(sleeps) <= (if p.maxAttempts > 1 then p.maxAttempts - 1 else 0) as real * Longest(p)
    ensures p.maxDelay == 60.0 ==> Longest(p) == 90.0
  {
    forall i | 0 <= i < |sleeps| ensures sleeps[i] <= Longest(p) {
      assert SleptAfter(p, operation(i + 1), i + 1, sleeps[i]);
      DelayBounds(p, operation(i + 1).failure, i + 1);
    }
    TotalBounded(sleeps, Longest(p));
    CallsBounded(p, operation, calls, sleeps, r);
    var most := if p.maxAttempts > 1 then p.maxAttempts - 1 else 0;
    assert |sleeps| as real * Longest(p) <= most as real * Longest(p);
  }

  /** With a person waiting, the code sleeps for at most one rate limit, after the first call, for at most 10 s. */
  lemma InteractiveWaitsOnce<T(!new)>(p: Policy, operation: nat -> Outcome<T>, calls: nat, sleeps: seq<real>, r: Result<T>, n: nat)
    requires Episode(p, operation, calls, sleeps, r) && Drawn(p) && p.interactive
    requires 1 <= n < calls && operation(n).Failed? && operation(n).failure.limited
    ensures n == 1 && sleeps[0] <= 10.0
  {
    assert SleptAfter(p, operation(n), n, sleeps[n - 1]);
    DelayBounds(p, operation(n).failure, n);
  }

  /** When the code tries again: after each failure worth retrying but that of the last attempt, and for a waiting person only
      after the first call, for a rate limit that names at most 8 s. */
  ghost predicate TriesAgain<T>(p: Policy, outcome: Outcome<T>, n: nat) {
    && outcome.Failed? && outcome.failure.retryable && n < p.maxAttempts
    && (outcome.failure.limited && p.interactive ==> n < 2 && outcome.failure.asked.Some? && outcome.failure.asked.value <= 8.0)
  }

  /** How every episode goes: the calls before the last are exactly those tried again, and the last one's outcome is passed on,
      a rate limit with the wait the provider named, cut to 65 s. */
  lemma EpisodeGoes<T(!new)>(p: Policy, operation: nat -> Outcome<T>, calls: nat, sleeps: seq<real>, r: Result<T>)
    requires Episode(p, operation, calls, sleeps, r)
    ensures calls > 0 && !TriesAgain(p, operation(calls), calls) && forall n :: 1 <= n < calls ==> TriesAgain(p, operation(n), n)
    ensures match operation(calls)
            case Value(v) => r == Returned(v)
            case Failed(f) =>
              if !f.limited then r == Raised(f)
              else r == RateLimited(if f.asked.None? then None else if f.asked.value < 65.0 then f.asked else Some(65.0))
  {
    forall n | 1 <= n < calls ensures TriesAgain(p, operation(n), n) {
      assert SleptAfter(p, operation(n), n, sleeps[n - 1]);
    }
  }

  /** How long it waits when the provider names no time: the base delay at first, twice as long after each further failure, up
      to the longest delay, each spread by its own random factor. */
  lemma DelaysDouble(p: Policy, f: Failure, n: nat) returns (steps: seq<real>)
    requires f.asked.None? || !f.limited
    ensures |steps| == n + 1 && steps[0] == p.baseDelay && forall i :: 0 < i <= n ==> steps[i] == 2.0 * steps[i - 1]
    ensures Delay(p, f, n + 1) == (if steps[n] < p.maxDelay then steps[n] else p.maxDelay) * (0.5 + p.jitter(n + 1))
  {
    steps := Steps(p, n);
  }

  lemma {:induction false} Steps(p: Policy, n: nat) returns (steps: seq<real>)
    ensures |steps| == n + 1 && steps[0] == p.baseDelay && forall i :: 0 < i <= n ==> steps[i] == 2.0 * steps[i - 1]
    ensures steps[n] == p.baseDelay * Doubled(n) as real
  {
    if n == 0 {
      steps := [p.baseDelay];
    } else {
      steps := Steps(p, n - 1);
      steps := steps + [2.0 * steps[n - 1]];
    }
  }
}
