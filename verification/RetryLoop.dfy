/** The retry loop around a tool's handler, and what one attempt at it can do. */
module RetryLoop {

  /**
   `Blocked`: the circuit breaker refused the attempt, so the handler did not run. `ordinary` tells
   the exceptions that `except Exception` catches from the others.
   */
  datatype Attempt =
    | Returned(result: string, awaitable: bool)
    | Raised(error: string, retryable: bool, ordinary: bool)
    | Blocked(error: string, retryable: bool)

  predicate Retries(a: Attempt) { !a.Returned? && a.retryable }

  function AttemptsFrom(limit: nat, attempts: nat -> Attempt, made: nat): nat
    requires 1 <= made <= limit
    decreases limit - made
  {
    if made < limit && Retries(attempts(made - 1)) then AttemptsFrom(limit, attempts, made + 1) else made
  }

  /** How many attempts the loop makes. */
  function Made(limit: nat, attempts: nat -> Attempt): nat
    requires limit >= 1
  {
    AttemptsFrom(limit, attempts, 1)
  }

  /** Where the loop stops: at the limit, at the first return, or at the first exception that is not to be retried. */
  ghost predicate StopsAt(limit: nat, attempts: nat -> Attempt, n: nat) {
    && 1 <= n <= limit
    && (forall i: nat :: i < n - 1 ==> !attempts(i).Returned? && attempts(i).retryable)
    && (n == limit || attempts(n - 1).Returned? || !attempts(n - 1).retryable)
  }

  lemma {:induction false} AttemptsFromStops(limit: nat, attempts: nat -> Attempt, made: nat)
    requires 1 <= made <= limit && forall i: nat :: i < made - 1 ==> Retries(attempts(i))
    ensures StopsAt(limit, attempts, AttemptsFrom(limit, attempts, made))
    decreases limit - made
  {
    if made < limit && Retries(attempts(made - 1)) {
      AttemptsFromStops(limit, attempts, made + 1);
    }
  }

  /** The loop stops in one place only. */
  lemma LoopStopsOnce(limit: nat, attempts: nat -> Attempt, n: nat)
    requires limit >= 1
    ensures StopsAt(limit, attempts, n) <==> n == Made(limit, attempts)
  {
    AttemptsFromStops(limit, attempts, 1);
    if StopsAt(limit, attempts, n) {
      StopsAgree(limit, attempts, n, Made(limit, attempts));
    }
  }

  lemma StopsAgree(limit: nat, attempts: nat -> Attempt, n: nat, m: nat)
    requires StopsAt(limit, attempts, n) && StopsAt(limit, attempts, m)
    ensures n == m
  {
    var atN, atM := attempts(n - 1), attempts(m - 1);
  }

  /** How many of the first `n` attempts ran the handler. */
  function RunsIn(attempts: nat -> Attempt, n: nat): nat {
    if n == 0 then 0 else RunsIn(attempts, n - 1) + if attempts(n - 1).Blocked? then 0 else 1
  }

  lemma {:induction false} RunsAtMost(attempts: nat -> Attempt, n: nat)
    ensures RunsIn(attempts, n) <= n
  {
    if n > 0 {
      RunsAtMost(attempts, n - 1);
    }
  }

  /** The attempts that run the handler are those that the breaker does not block. */
  lemma {:induction false} RunsAreUnblocked(attempts: nat -> Attempt, n: nat)
    ensures RunsIn(attempts, n) == |set i: nat | i < n && !attempts(i).Blocked?|
  {
    var ran := set i: nat | i < n && !attempts(i).Blocked?;
    if n == 0 {
      assert ran == {};
    } else {
      RunsAreUnblocked(attempts, n - 1);
      var earlier := set i: nat | i < n - 1 && !attempts(i).Blocked?;
      assert ran == if attempts(n - 1).Blocked? then earlier else earlier + {n - 1};
    }
  }

  /** The loop never runs the handler more often than its limit. */
  lemma RunsWithinLimit(limit: nat, attempts: nat -> Attempt)
    requires limit >= 1
    ensures 1 <= Made(limit, attempts) <= limit && RunsIn(attempts, Made(limit, attempts)) <= limit
  {
    AttemptsFromStops(limit, attempts, 1);
    RunsAtMost(attempts, Made(limit, attempts));
  }

  /** Attempts stop at the first return, the first exception that is not retried, or the limit. */
  method RetryCall(limit: nat, attempts: nat -> Attempt) returns (outcome: Attempt, made: nat, runs: nat)
    requires limit >= 1
    ensures StopsAt(limit, attempts, made) && made == Made(limit, attempts)
    ensures outcome == attempts(made - 1) && runs == RunsIn(attempts, made)
  {
    made := 1;
    runs := if attempts(0).Blocked? then 0 else 1;
    while made < limit && Retries(attempts(made - 1))
      invariant 1 <= made <= limit
      invariant forall i: nat :: i < made - 1 ==> Retries(attempts(i))
      invariant runs == RunsIn(attempts, made)
    {
      runs := runs + if attempts(made).Blocked? then 0 else 1;
      made := made + 1;
    }
    outcome := attempts(made - 1);
    LoopStopsOnce(limit, attempts, made);
  }
}
