/** The circuit breaker of the storage client, and what it means over a whole run of calls. */
module CircuitBreaking {
  import opened Clock
  import opened Naturals
  import opened Options

  datatype BreakerState = Closed | Open | HalfOpen

  /** The fields of a breaker at one moment. */
  datatype Breaker = Breaker(threshold: nat, timeout: nat, state: BreakerState, failures: nat, openedAt: Option<nat>)

  /** The calls made on a breaker, with the clock reading each of them takes. */
  datatype Call = Allow(at: nat) | Success(at: nat) | Failure(at: nat)

  function Fresh(threshold: nat, timeout: nat): Breaker {
    Breaker(threshold, timeout, Closed, 0, None)
  }

  predicate Allowed(b: Breaker, now: nat) {
    match b.state
    case Closed => true
    case HalfOpen => true
    case Open => b.openedAt.Some? && Since(b.openedAt.value, now) >= b.timeout
  }

  function Step(b: Breaker, call: Call): Breaker {
    match call
    case Allow(now) => if b.state == Open && Allowed(b, now) then b.(state := HalfOpen) else b
    case Success(_) => b.(failures := 0, state := Closed, openedAt := None)
    case Failure(now) =>
      if b.failures + 1 >= b.threshold then b.(failures := b.failures + 1, state := Open, openedAt := Some(now))
      else b.(failures := b.failures + 1)
  }

  function Run(b: Breaker, log: seq<Call>): Breaker {
    if log == [] then b else Step(Run(b, log[..|log| - 1]), log[|log| - 1])
  }

  class CircuitBreaker {
    const failureThreshold: nat
    const recoveryTimeout: nat
    var state: BreakerState
    var failureCount: nat
    var openedAt: Option<nat>

    function View(): Breaker
      reads this
    {
      Breaker(failureThreshold, recoveryTimeout, state, failureCount, openedAt)
    }

    constructor (failureThreshold: nat, recoveryTimeout: nat)
      ensures View() == Fresh(failureThreshold, recoveryTimeout)
    {
      this.failureThreshold := failureThreshold;
      this.recoveryTimeout := recoveryTimeout;
      state := Closed;
      failureCount := 0;
      openedAt := None;
    }

    method ShouldAllowRequest(now: nat) returns (allowed: bool)
      modifies this
      ensures allowed == Allowed(old(View()), now)
      ensures View() == Step(old(View()), Allow(now))
    {
      match state
      case Closed => allowed := true;
      case Open =>
        if openedAt.Some? {
          if Since(openedAt.value, now) >= recoveryTimeout {
            state := HalfOpen;
            allowed := true;
          } else {
            allowed := false;
          }
        } else {
          allowed := false;
        }
      case HalfOpen => allowed := true;
    }

    method RecordSuccess(now: nat)
      modifies this
      ensures View() == Step(old(View()), Success(now))
    {
      failureCount := 0;
      state := Closed;
      openedAt := None;
    }

    method RecordFailure(now: nat)
      modifies this
      ensures View() == Step(old(View()), Failure(now))
    {
      failureCount := failureCount + 1;
      if failureCount >= failureThreshold {
        state := Open;
        openedAt := Some(now);
      }
    }
  }

  // ---------------------------------------------------------------------------------------------
  // The breaker as a function of its log
  // ---------------------------------------------------------------------------------------------

  /** Failures since the last success. */
  function TrailingFailures(log: seq<Call>): nat {
    if log == [] then 0
    else
      var before := log[..|log| - 1];
      match log[|log| - 1]
      case Allow(_) => TrailingFailures(before)
      case Success(_) => 0
      case Failure(_) => TrailingFailures(before) + 1
  }

  /** When the last failure happened, if there was one. */
  function LastFailure(log: seq<Call>): Option<nat> {
    if log == [] then None
    else if log[|log| - 1].Failure? then Some(log[|log| - 1].at)
    else LastFailure(log[..|log| - 1])
  }

  /** The clock never goes back. */
  predicate Monotone(log: seq<Call>, now: nat) {
    && (forall i, j :: 0 <= i < j < |log| ==> log[i].at <= log[j].at)
    && (forall i :: 0 <= i < |log| ==> log[i].at <= now)
  }

  /** A threshold of zero acts like one. */
  function Tripping(threshold: nat): nat {
    Max(threshold, 1)
  }

  predicate Tripped(b: Breaker, log: seq<Call>, now: nat) {
    && b.failures == TrailingFailures(log)
    && (b.state == Closed <==> TrailingFailures(log) < Tripping(b.threshold))
    && (b.state != Closed ==> b.openedAt == LastFailure(log) && b.openedAt.Some? && b.openedAt.value <= now)
    && (b.state == HalfOpen ==> Since(b.openedAt.value, now) >= b.timeout)
  }

  lemma {:induction false} StateOfLog(threshold: nat, timeout: nat, log: seq<Call>, now: nat)
    requires Monotone(log, now)
    ensures Run(Fresh(threshold, timeout), log).threshold == threshold
    ensures Run(Fresh(threshold, timeout), log).timeout == timeout
    ensures Tripped(Run(Fresh(threshold, timeout), log), log, now)
  {
    if log == [] {
    } else {
      var before := log[..|log| - 1];
      StateOfLog(threshold, timeout, before, log[|log| - 1].at);
    }
  }

  /**
   After every run of calls, a request is allowed exactly when the current run of failures is
   shorter than the threshold or its last failure is at least the recovery timeout old.
   */
  lemma AllowedExactly(threshold: nat, timeout: nat, log: seq<Call>, now: nat)
    requires Monotone(log, now)
    ensures Allowed(Run(Fresh(threshold, timeout), log), now) <==>
            (|| TrailingFailures(log) < Tripping(threshold)
             || (LastFailure(log).Some? && now - LastFailure(log).value >= timeout))
  {
    StateOfLog(threshold, timeout, log, now);
    LastFailureIsPast(log, now);
  }

  lemma {:induction false} LastFailureIsPast(log: seq<Call>, now: nat)
    requires Monotone(log, now)
    ensures LastFailure(log).Some? ==> LastFailure(log).value <= now
  {
    if log == [] {
    } else {
      LastFailureIsPast(log[..|log| - 1], now);
    }
  }
}
