/** The recovery manager of the storage client. */
module RecoveryTracking {
  import opened Clock
  import opened Naturals
  import opened Options

  datatype RecoveryState = Healthy | Degraded | Unavailable | Recovering

  datatype Recovery = Recovery(threshold: nat, delay: nat, state: RecoveryState, lastSuccess: Option<nat>,
                               failures: nat)

  /** The operations recorded, in order. A failure does not read the clock. */
  datatype Record = Succeeded(at: nat) | Broke

  function Fresh(threshold: nat, delay: nat): Recovery {
    Recovery(threshold, delay, Healthy, None, 0)
  }

  function Step(r: Recovery, record: Record): Recovery {
    match record
    case Succeeded(now) =>
      var s := r.(lastSuccess := Some(now));
      (match r.state
       case Recovering => if r.failures == 0 then s.(state := Healthy) else s
       case Degraded => s.(state := Recovering, failures := 0)
       case Unavailable => s.(state := Recovering, failures := 0)
       case Healthy => s.(failures := 0))
    case Broke =>
      var s := r.(failures := r.failures + 1);
      (match r.state
       case Healthy => if s.failures >= r.threshold / 2 then s.(state := Degraded) else s
       case Degraded => if s.failures >= r.threshold then s.(state := Unavailable) else s
       case Recovering => s.(state := Unavailable)
       case Unavailable => s)
  }

  function Run(r: Recovery, log: seq<Record>): Recovery {
    if log == [] then r else Step(Run(r, log[..|log| - 1]), log[|log| - 1])
  }

  predicate ShouldAttempt(r: Recovery, now: nat) {
    r.state == Unavailable && (r.lastSuccess.Some? ==> Since(r.lastSuccess.value, now) >= r.delay)
  }

  class RecoveryManager {
    const failureThreshold: nat
    const recoveryDelay: nat
    var state: RecoveryState
    var lastSuccess: Option<nat>
    var consecutiveFailures: nat

    function View(): Recovery
      reads this
    {
      Recovery(failureThreshold, recoveryDelay, state, lastSuccess, consecutiveFailures)
    }

    constructor (failureThreshold: nat, recoveryDelay: nat)
      ensures View() == Fresh(failureThreshold, recoveryDelay)
    {
      this.failureThreshold := failureThreshold;
      this.recoveryDelay := recoveryDelay;
      state := Healthy;
      lastSuccess := None;
      consecutiveFailures := 0;
    }

    method RecordSuccess(now: nat)
      modifies this
      ensures View() == Step(old(View()), Succeeded(now))
    {
      lastSuccess := Some(now);
      match state
      case Recovering => if consecutiveFailures == 0 { state := Healthy; }
      case Degraded | Unavailable =>
        state := Recovering;
        consecutiveFailures := 0;
      case Healthy => consecutiveFailures := 0;
    }

    method RecordFailure()
      modifies this
      ensures View() == Step(old(View()), Broke)
    {
      consecutiveFailures := consecutiveFailures + 1;
      match state
      case Healthy => if consecutiveFailures >= failureThreshold / 2 { state := Degraded; }
      case Degraded => if consecutiveFailures >= failureThreshold { state := Unavailable; }
      case Recovering => state := Unavailable;
      case Unavailable =>
    }

    method ShouldAttemptRecovery(now: nat) returns (yes: bool)
      ensures yes == ShouldAttempt(View(), now)
    {
      if state != Unavailable { return false; }
      if lastSuccess.None? { return true; }
      return Since(lastSuccess.value, now) >= recoveryDelay;
    }
  }

  // ---------------------------------------------------------------------------------------------
  // The manager as a function of its log
  // ---------------------------------------------------------------------------------------------

  function TrailingFailures(log: seq<Record>): nat {
    if log == [] || log[|log| - 1].Succeeded? then 0 else TrailingFailures(log[..|log| - 1]) + 1
  }

  function LastSuccess(log: seq<Record>): Option<nat> {
    if log == [] then None
    else if log[|log| - 1].Succeeded? then Some(log[|log| - 1].at)
    else LastSuccess(log[..|log| - 1])
  }

  /** The state reached from `Healthy` by `n` failures in a row. */
  function AfterFailures(threshold: nat, n: nat): RecoveryState {
    if n < Max(threshold / 2, 1) then Healthy
    else if n < Max(threshold, 2) then Degraded
    else Unavailable
  }

  /** The log up to and including its last success. */
  function UpToSuccess(log: seq<Record>): seq<Record> {
    if log == [] || log[|log| - 1].Succeeded? then log else UpToSuccess(log[..|log| - 1])
  }

  /** Whether the last success found the storage in trouble, so that recovery is still on trial. */
  predicate OnTrial(threshold: nat, log: seq<Record>)
    decreases |log|, 1
  {
    && log != [] && log[|log| - 1].Succeeded?
    && StateOf(threshold, log[..|log| - 1]) in {Degraded, Unavailable}
  }

  /** The state after a log, read off its shape: the last success and the failures since. */
  function StateOf(threshold: nat, log: seq<Record>): RecoveryState
    decreases |log|, 2
  {
    UpToSuccessShorter(log);
    var n := TrailingFailures(log);
    if OnTrial(threshold, UpToSuccess(log)) then (if n == 0 then Recovering else Unavailable)
    else AfterFailures(threshold, n)
  }

  lemma {:induction false} UpToSuccessShorter(log: seq<Record>)
    ensures |UpToSuccess(log)| <= |log|
  {
    if log != [] && !log[|log| - 1].Succeeded? { UpToSuccessShorter(log[..|log| - 1]); }
  }

  /**
   Over every run: the failure counter is the current run of failures, zero while recovering, and
   the state is the one the shape of the log says. In particular a threshold below two acts like two.
   */
  lemma {:induction false} StateOfLog(threshold: nat, delay: nat, log: seq<Record>)
    ensures var r := Run(Fresh(threshold, delay), log);
            && r.threshold == threshold && r.delay == delay
            && r.failures == TrailingFailures(log)
            && (r.state == Recovering ==> r.failures == 0)
            && r.lastSuccess == LastSuccess(log)
            && r.state == StateOf(threshold, log)
  {
    if log == [] {
    } else {
      var before := log[..|log| - 1];
      StateOfLog(threshold, delay, before);
    }
  }

  lemma {:induction false} FailuresInARow(n: nat)
    ensures TrailingFailures(seq(n, _ => Broke)) == n && UpToSuccess(seq(n, _ => Broke)) == []
  {
    if n > 0 {
      assert seq(n, _ => Broke)[..n - 1] == seq(n - 1, _ => Broke);
      FailuresInARow(n - 1);
    }
  }

  /** A fresh manager is unavailable after exactly `max(threshold, 2)` failures in a row, and degraded just before. */
  lemma OutageFromFresh(threshold: nat, delay: nat, n: nat)
    ensures var r := Run(Fresh(threshold, delay), seq(n, _ => Broke));
            && r.state == AfterFailures(threshold, n)
            && (r.state == Unavailable <==> n >= Max(threshold, 2))
            && (n + 1 == Max(threshold, 2) ==> r.state == Degraded)
  {
    FailuresInARow(n);
    StateOfLog(threshold, delay, seq(n, _ => Broke));
  }

  /** One failure while recovering ends the recovery; two successes in a row always end in `Healthy`. */
  lemma RecoveryIsDecidedAtOnce(threshold: nat, delay: nat, log: seq<Record>, at: nat, later: nat)
    ensures var r := Run(Fresh(threshold, delay), log);
            && (r.state == Recovering ==> Step(r, Broke).state == Unavailable)
            && Step(Step(r, Succeeded(at)), Succeeded(later)).state == Healthy
  {
    StateOfLog(threshold, delay, log);
  }

  /**
   After every log, recovery is due if and only if the shape of the log says unavailable and the
   last success, if there was one, is at least the delay old.
   */
  lemma DueExactly(threshold: nat, delay: nat, log: seq<Record>, now: nat)
    ensures ShouldAttempt(Run(Fresh(threshold, delay), log), now) <==>
            && StateOf(threshold, log) == Unavailable
            && (LastSuccess(log).Some? ==> Since(LastSuccess(log).value, now) >= delay)
  {
    StateOfLog(threshold, delay, log);
  }
}
