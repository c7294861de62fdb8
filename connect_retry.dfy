/**
 * The connection retry of seed_database: try to connect up to MaxRetries
 * times, stop at the first success, sleep RetryDelay seconds after each
 * OperationalError that is not on the last attempt, and re-raise the error of
 * the last attempt. The outcome of each call to connect is a parameter: the
 * database server is not modelled.
 */
module ConnectRetry {

  const MaxRetries: nat := 5
  const RetryDelay: nat := 2

  datatype Error = OperationalError(message: string) | OtherError(message: string)

  /** What the k-th call to connect does. */
  datatype Outcome = Connected | Failed(error: Error)

  /** How the retry loop ends: holding the connection of an attempt, or raising. */
  datatype Result = Open(attempt: nat) | Raised(error: Error)

  /** What the loop does, in order. */
  datatype Step = Attempt(index: nat) | Sleep(seconds: nat)

  /** Only OperationalError is caught and retried; any other error propagates. */
  predicate Retryable(o: Outcome) {
    o.Failed? && o.error.OperationalError?
  }

  /**
   * What the loop promises: every attempt but the last failed with an
   * OperationalError; the last one is the first that did not, unless the
   * attempts ran out; the result is that attempt's connection or error.
   */
  predicate RetrySpec(connect: nat -> Outcome, result: Result, attempts: nat) {
    && 1 <= attempts <= MaxRetries
    && (forall j :: 0 <= j < attempts - 1 ==> Retryable(connect(j)))
    && (attempts < MaxRetries ==> !Retryable(connect(attempts - 1)))
    && (result.Open? <==> connect(attempts - 1) == Connected)
    && (result.Open? ==> result.attempt == attempts - 1)
    && (result.Raised? ==> connect(attempts - 1) == Failed(result.error))
  }

  /** The log of n attempts with a sleep between consecutive ones. */
  function Schedule(n: nat): (log: seq<Step>)
    requires n >= 1
    ensures |log| == 2 * n - 1 && log[|log| - 1] == Attempt(n - 1)
  {
    if n == 1 then [Attempt(0)] else Schedule(n - 1) + [Sleep(RetryDelay), Attempt(n - 1)]
  }

  /** The retry loop of seed_database. */
  method ConnectWithRetry(connect: nat -> Outcome) returns (result: Result, attempts: nat, log: seq<Step>)
    ensures RetrySpec(connect, result, attempts)
    ensures log == Schedule(attempts)
  {
    attempts := 0;
    log := [];
    while true
      invariant attempts < MaxRetries
      invariant forall j :: 0 <= j < attempts ==> Retryable(connect(j))
      invariant attempts == 0 ==> log == []
      invariant attempts > 0 ==> log == Schedule(attempts) + [Sleep(RetryDelay)]
      decreases MaxRetries - attempts
    {
      var attempt := attempts;
      log := log + [Attempt(attempt)];
      var outcome := connect(attempt);
      attempts := attempts + 1;
      match outcome {
        case Connected =>
          result := Open(attempt);
          break;
        case Failed(e) =>
          if !e.OperationalError? || attempt == MaxRetries - 1 {
            result := Raised(e);
            break;
          }
          log := log + [Sleep(RetryDelay)];
      }
    }
  }

  /** The postcondition fixes the result and the number of attempts. */
  lemma RetrySpecUnique(connect: nat -> Outcome, r1: Result, a1: nat, r2: Result, a2: nat)
    requires RetrySpec(connect, r1, a1) && RetrySpec(connect, r2, a2)
    ensures r1 == r2 && a1 == a2
  {
  }

  /**
   * The OperationalError is re-raised exactly when all MaxRetries attempts
   * failed with one, and it is the last attempt's.
   */
  lemma ReraiseOnlyWhenAllFail(connect: nat -> Outcome, result: Result, attempts: nat)
    requires RetrySpec(connect, result, attempts)
    ensures (result.Raised? && result.error.OperationalError?)
        <==> (forall j :: 0 <= j < MaxRetries ==> Retryable(connect(j)))
    ensures result.Raised? && result.error.OperationalError? ==>
      attempts == MaxRetries && connect(MaxRetries - 1) == Failed(result.error)
  {
  }

  /** Each sleep comes right after a failed attempt that was not the last allowed one. */
  lemma {:induction false} SleepFollowsRetryableFailure(connect: nat -> Outcome, result: Result, attempts: nat, q: nat)
    requires RetrySpec(connect, result, attempts)
    requires q < |Schedule(attempts)| && Schedule(attempts)[q].Sleep?
    ensures q > 0 && Schedule(attempts)[q - 1].Attempt?
    ensures Schedule(attempts)[q - 1].index < MaxRetries - 1
    ensures Retryable(connect(Schedule(attempts)[q - 1].index))
    ensures Schedule(attempts)[q].seconds == RetryDelay
  {
  }

  lemma {:induction false} ScheduleAt(n: nat, q: nat)
    requires n >= 1 && q < 2 * n - 1
    ensures Schedule(n)[q] == if q % 2 == 0 then Attempt(q / 2) else Sleep(RetryDelay)
  {
    if n > 1 && q < 2 * n - 3 {
      ScheduleAt(n - 1, q);
    }
  }
}
