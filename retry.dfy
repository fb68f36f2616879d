/**
 * `RetryAction.retry_action` (lib/ncio/support/retry_action.rb): run a block
 * until it returns; after a failure, give up with `Timeout` once the time
 * since the start reaches the timeout, re-raise a failure whose class is not
 * retryable, and otherwise sleep with exponential back-off and run the block
 * again.
 *
 * The clock is explicit: time is counted in integer tenths of a second from
 * the start of the call, `took(k)` is how long the k-th run of the block
 * (counting from 0) lasts, and the sleeps are added in between.
 */
module RetryAction {
  import opened Wrappers

  /** The name of an exception's class: the retry list is matched by exact class. */
  type ExceptionClass = string

  /** What one run of the block does: return a value, or raise an exception of some class. */
  datatype Attempt<T> = Returned(value: T) | Raised(cls: ExceptionClass)

  /** The `RetryException` kinds, and a failure of the block re-raised unchanged. */
  datatype RetryError = NoBlockGiven | NoTimeoutGiven | Timeout | Reraised(cls: ExceptionClass)

  datatype Outcome<T> = Done(value: T) | Failed(error: RetryError)

  /** `timedout?(start, timeout)` asked at time `now`: always true without a timeout. */
  function TimedOut(start: int, now: int, timeout: Option<int>): (r: bool)
    ensures timeout.None? ==> r
    ensures timeout.Some? ==> (r <==> now - start >= timeout.value)
  {
    if timeout.None? then true else now - start >= timeout.value
  }

  /** Once timed out, a later question is timed out too. */
  lemma TimedOutStays(start: int, now: int, later: int, timeout: Option<int>)
    requires TimedOut(start, now, timeout) && now <= later
    ensures TimedOut(start, later, timeout)
  {
  }

  function Pow2(n: nat): (r: nat)
    ensures r >= n + 1
  {
    if n == 0 then 1 else 2 * Pow2(n - 1)
  }

  /** The sleep after the n-th retried failure, `(2**n - 1) * 0.1` seconds, in tenths. */
  function Backoff(n: nat): (r: nat)
    requires n >= 1
    ensures r >= n
  {
    Pow2(n) - 1
  }

  /** `params[:retry_exceptions] ||= []`, then: an empty list retries every class. */
  predicate Retryable(cls: ExceptionClass, retryExceptions: Option<seq<ExceptionClass>>) {
    var list := if retryExceptions.Some? then retryExceptions.value else [];
    |list| == 0 || cls in list
  }

  /**
   * The time at which the k-th run of the block starts, when every earlier
   * run failed and was retried: all earlier runs plus the k back-off sleeps.
   */
  function StartAt(took: nat -> nat, k: nat): nat
    decreases k, 0
  {
    if k == 0 then 0 else ElapsedAt(took, k - 1) + Backoff(k)
  }

  /** The time at which the k-th run of the block ends. */
  function ElapsedAt(took: nat -> nat, k: nat): nat
    decreases k, 1
  {
    StartAt(took, k) + took(k)
  }

  /**
   * What the `rescue` clause makes of a run that ended at time `now`: `None`
   * when the block is run again, otherwise the result of `retry_action`.
   */
  function Decide<T>(a: Attempt<T>, now: int, timeout: Option<int>,
                     retryExceptions: Option<seq<ExceptionClass>>): Option<Outcome<T>>
  {
    match a
    case Returned(v) => Some(Done(v))
    case Raised(c) =>
      if TimedOut(0, now, timeout) then Some(Failed(Timeout))
      else if Retryable(c, retryExceptions) then None
      else Some(Failed(Reraised(c)))
  }

  /**
   * The rescue clause runs the block again exactly for a retryable failure
   * before the timeout; a returning run ends the call with its value, and a
   * failure that ends it is `Timeout` iff the time is up and otherwise the
   * run's own exception.
   */
  lemma DecideRetries<T>(a: Attempt<T>, now: int, timeout: Option<int>, retryExceptions: Option<seq<ExceptionClass>>)
    ensures Decide(a, now, timeout, retryExceptions).None?
        <==> a.Raised? && !TimedOut(0, now, timeout) && Retryable(a.cls, retryExceptions)
    ensures a.Returned? ==> Decide(a, now, timeout, retryExceptions) == Some(Done(a.value))
    ensures Decide(a, now, timeout, retryExceptions).Some? && Decide(a, now, timeout, retryExceptions).value.Failed? ==>
      var e := Decide(a, now, timeout, retryExceptions).value.error;
      a.Raised? && (e == Timeout <==> TimedOut(0, now, timeout)) && (e != Timeout ==> e == Reraised(a.cls))
  {
  }

  /**
   * The behaviour of one call: the argument checks come first; then the
   * block ran `attempts` times, every run but the last was retried after the
   * sleep `sleeps` records, and the last run decided the result.
   */
  ghost predicate Behaviour<T>(hasBlock: bool, timeout: Option<int>, retryExceptions: Option<seq<ExceptionClass>>,
                         attempt: nat -> Attempt<T>, took: nat -> nat,
                         r: Outcome<T>, attempts: nat, sleeps: seq<nat>)
  {
    if !hasBlock then r == Failed(NoBlockGiven) && attempts == 0 && sleeps == []
    else if timeout.None? then r == Failed(NoTimeoutGiven) && attempts == 0 && sleeps == []
    else
      && attempts == |sleeps| + 1
      && (forall n :: 0 <= n < |sleeps| ==> sleeps[n] == Backoff(n + 1))
      && (forall k :: 0 <= k < attempts - 1 ==>
            Decide(attempt(k), ElapsedAt(took, k), timeout, retryExceptions).None?)
      && Decide(attempt(attempts - 1), ElapsedAt(took, attempts - 1), timeout, retryExceptions) == Some(r)
  }

  /**
   * `retry_action(params) { attempt }`. Runs the block at most
   * `max(timeout, 0) + 1` times: each retried failure sleeps at least a
   * tenth of a second, so the timeout is reached.
   */
  method Retry<T>(hasBlock: bool, timeout: Option<int>, retryExceptions: Option<seq<ExceptionClass>>,
                  attempt: nat -> Attempt<T>, took: nat -> nat)
    returns (r: Outcome<T>, attempts: nat, sleeps: seq<nat>)
    ensures Behaviour(hasBlock, timeout, retryExceptions, attempt, took, r, attempts, sleeps)
    ensures timeout.Some? ==> attempts <= (if timeout.value < 0 then 0 else timeout.value) + 1
  {
    if !hasBlock {
      return Failed(NoBlockGiven), 0, [];
    }
    if timeout.None? {
      return Failed(NoTimeoutGiven), 0, [];
    }
    var list := if retryExceptions.Some? then retryExceptions.value else [];
    var limit := timeout.value;
    var failures: nat := 0;
    var now := 0;
    sleeps := [];
    while true
      invariant |sleeps| == failures
      invariant forall n :: 0 <= n < failures ==> sleeps[n] == Backoff(n + 1)
      invariant forall k :: 0 <= k < failures ==> Decide(attempt(k), ElapsedAt(took, k), timeout, retryExceptions).None?
      invariant now == StartAt(took, failures)
      invariant failures <= now
      invariant failures <= (if limit < 0 then 0 else limit)
      decreases limit - failures
    {
      var outcome := attempt(failures);
      now := now + took(failures);
      assert now == ElapsedAt(took, failures);
      match outcome {
        case Returned(v) =>
          return Done(v), failures + 1, sleeps;
        case Raised(cls) =>
          if TimedOut(0, now, timeout) {
            return Failed(Timeout), failures + 1, sleeps;
          }
          if |list| > 0 && cls !in list {
            assert !Retryable(cls, retryExceptions);
            return Failed(Reraised(cls)), failures + 1, sleeps;
          }
          assert Decide(outcome, now, timeout, retryExceptions).None?;
          failures := failures + 1;
          sleeps := sleeps + [Backoff(failures)];
          now := now + Backoff(failures);
      }
    }
  }

  /** The run that decides is the first one the rescue clause does not retry. */
  lemma DecidedAt<T>(timeout: Option<int>, retryExceptions: Option<seq<ExceptionClass>>,
                     attempt: nat -> Attempt<T>, took: nat -> nat,
                     r: Outcome<T>, attempts: nat, sleeps: seq<nat>, k: nat)
    requires Behaviour(true, timeout, retryExceptions, attempt, took, r, attempts, sleeps)
    requires timeout.Some?
    requires Decide(attempt(k), ElapsedAt(took, k), timeout, retryExceptions).Some?
    requires forall j :: 0 <= j < k ==> Decide(attempt(j), ElapsedAt(took, j), timeout, retryExceptions).None?
    ensures attempts == k + 1
    ensures Some(r) == Decide(attempt(k), ElapsedAt(took, k), timeout, retryExceptions)
  {
  }

  /** The behaviour of a call is a function of its inputs: at most one result, run count and sleep list. */
  lemma BehaviourUnique<T>(hasBlock: bool, timeout: Option<int>, retryExceptions: Option<seq<ExceptionClass>>,
                           attempt: nat -> Attempt<T>, took: nat -> nat,
                           r1: Outcome<T>, attempts1: nat, sleeps1: seq<nat>,
                           r2: Outcome<T>, attempts2: nat, sleeps2: seq<nat>)
    requires Behaviour(hasBlock, timeout, retryExceptions, attempt, took, r1, attempts1, sleeps1)
    requires Behaviour(hasBlock, timeout, retryExceptions, attempt, took, r2, attempts2, sleeps2)
    ensures r1 == r2 && attempts1 == attempts2 && sleeps1 == sleeps2
  {
    if hasBlock && timeout.Some? {
      DecidedAt(timeout, retryExceptions, attempt, took, r2, attempts2, sleeps2, attempts1 - 1);
      assert |sleeps1| == |sleeps2|;
      assert forall n :: 0 <= n < |sleeps1| ==> sleeps1[n] == sleeps2[n];
    }
  }

  /**
   * A failure whose class is not in a non-empty retry list is re-raised as
   * it is, after the runs before it and with no further sleep, when it
   * happens before the timeout.
   */
  lemma NotRetryableReraised<T>(timeout: int, list: seq<ExceptionClass>,
                                attempt: nat -> Attempt<T>, took: nat -> nat,
                                r: Outcome<T>, attempts: nat, sleeps: seq<nat>, k: nat)
    requires Behaviour(true, Some(timeout), Some(list), attempt, took, r, attempts, sleeps)
    requires forall j :: 0 <= j < k ==> Decide(attempt(j), ElapsedAt(took, j), Some(timeout), Some(list)).None?
    requires |list| > 0 && attempt(k).Raised? && attempt(k).cls !in list
    requires ElapsedAt(took, k) < timeout
    ensures r == Failed(Reraised(attempt(k).cls)) && attempts == k + 1 && |sleeps| == k
  {
    DecidedAt(Some(timeout), Some(list), attempt, took, r, attempts, sleeps, k);
  }

  /**
   * With no retry list, or an empty one, every failure is retried until the
   * timeout: the call never re-raises, so a call that fails fails with `Timeout`.
   */
  lemma EmptyListOnlyTimesOut<T>(timeout: int, retryExceptions: Option<seq<ExceptionClass>>,
                                 attempt: nat -> Attempt<T>, took: nat -> nat,
                                 r: Outcome<T>, attempts: nat, sleeps: seq<nat>)
    requires retryExceptions.None? || retryExceptions == Some([])
    requires Behaviour(true, Some(timeout), retryExceptions, attempt, took, r, attempts, sleeps)
    ensures r.Failed? ==> r.error == Timeout
    ensures r.Failed? ==> ElapsedAt(took, attempts - 1) >= timeout
  {
    var last := attempts - 1;
    match attempt(last)
    case Returned(v) =>
    case Raised(c) =>
      assert Retryable(c, retryExceptions);
  }

  /**
   * The timeout is checked before the retry list: a failure at or after the
   * timeout becomes `Timeout`, at whichever run it happens, even when its
   * class would not be retried.
   */
  lemma TimeoutBeforeFilter<T>(timeout: int, list: seq<ExceptionClass>,
                               attempt: nat -> Attempt<T>, took: nat -> nat,
                               r: Outcome<T>, attempts: nat, sleeps: seq<nat>, k: nat)
    requires Behaviour(true, Some(timeout), Some(list), attempt, took, r, attempts, sleeps)
    requires forall j :: 0 <= j < k ==> Decide(attempt(j), ElapsedAt(took, j), Some(timeout), Some(list)).None?
    requires attempt(k).Raised? && ElapsedAt(took, k) >= timeout
    ensures r == Failed(Timeout) && attempts == k + 1 && |sleeps| == k
  {
    DecidedAt(Some(timeout), Some(list), attempt, took, r, attempts, sleeps, k);
  }

  /**
   * A run that returns ends the call with its value, even when it ends
   * after the timeout: a successful run is never checked against it.
   */
  lemma SuccessNeverTimesOut<T>(timeout: int, retryExceptions: Option<seq<ExceptionClass>>,
                                attempt: nat -> Attempt<T>, took: nat -> nat,
                                r: Outcome<T>, attempts: nat, sleeps: seq<nat>, k: nat)
    requires Behaviour(true, Some(timeout), retryExceptions, attempt, took, r, attempts, sleeps)
    requires attempt(k).Returned?
    requires forall j :: 0 <= j < k ==> Decide(attempt(j), ElapsedAt(took, j), Some(timeout), retryExceptions).None?
    ensures r == Done(attempt(k).value) && attempts == k + 1
  {
    DecidedAt(Some(timeout), retryExceptions, attempt, took, r, attempts, sleeps, k);
  }

  /** Connection refused three times, then an answer. */
  function RefusedThrice(k: nat): Attempt<string> {
    if k < 3 then Raised("Errno::ECONNREFUSED") else Returned("groups")
  }

  function Instant(k: nat): nat { 0 }

  /**
   * With a 60 s timeout and only `Errno::ECONNREFUSED` retried, three refusals
   * and then an answer return the answer after sleeping 0.1, 0.3 and 0.7 s.
   */
  lemma ThreeRefusalsThenSuccess(r: Outcome<string>, attempts: nat, sleeps: seq<nat>)
    requires Behaviour(true, Some(600), Some(["Errno::ECONNREFUSED"]), RefusedThrice, Instant, r, attempts, sleeps)
    ensures r == Done("groups") && attempts == 4 && sleeps == [1, 3, 7]
  {
    assert ElapsedAt(Instant, 0) == 0;
    assert ElapsedAt(Instant, 1) == 1;
    assert ElapsedAt(Instant, 2) == 4;
    forall j | 0 <= j < 3
      ensures Decide(RefusedThrice(j), ElapsedAt(Instant, j), Some(600), Some(["Errno::ECONNREFUSED"])).None?
    {
    }
    SuccessNeverTimesOut(600, Some(["Errno::ECONNREFUSED"]), RefusedThrice, Instant, r, attempts, sleeps, 3);
    assert Backoff(1) == 1 && Backoff(2) == 3 && Backoff(3) == 7;
  }
}
