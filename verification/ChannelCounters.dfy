/** The statistics of the message channel, whose pending counter saturates at zero. */
module ChannelCounters {
  import opened Naturals
  import MovingAverage

  datatype Stats = Stats(sent: nat, received: nat, responses: nat, timeouts: nat, sendFailures: nat,
                         pending: nat, maxPending: nat, backpressure: nat)

  /** A request is sent into a congested channel or not. */
  datatype Record = RequestSent(congested: bool) | RequestReceived | ResponseSent | TimedOut | SendFailed

  const ZERO := Stats(0, 0, 0, 0, 0, 0, 0, 0)

  function SaturatingDec(n: nat): nat {
    if n == 0 then 0 else n - 1
  }

  function Step(s: Stats, record: Record): Stats {
    match record
    case RequestSent(congested) =>
      s.(sent := s.sent + 1, pending := s.pending + 1, maxPending := Max(s.maxPending, s.pending + 1),
         backpressure := s.backpressure + if congested then 1 else 0)
    case RequestReceived => s.(received := s.received + 1)
    case ResponseSent => s.(responses := s.responses + 1, pending := SaturatingDec(s.pending))
    case TimedOut => s.(timeouts := s.timeouts + 1, pending := SaturatingDec(s.pending))
    case SendFailed => s.(sendFailures := s.sendFailures + 1)
  }

  function Run(log: seq<Record>): Stats {
    if log == [] then ZERO else Step(Run(log[..|log| - 1]), log[|log| - 1])
  }

  class MessageChannel {
    const bufferSize: nat
    const thresholdPercent: nat
    var requestsSent: nat
    var requestsReceived: nat
    var responsesSent: nat
    var requestsTimeout: nat
    var sendFailures: nat
    var pendingRequests: nat
    var maxPendingRequests: nat
    var backpressureEvents: nat
    var avgProcessingTime: nat

    function View(): Stats
      reads this
    {
      Stats(requestsSent, requestsReceived, responsesSent, requestsTimeout, sendFailures,
            pendingRequests, maxPendingRequests, backpressureEvents)
    }

    /** The channel is congested when the requests it buffers reach their share of the buffer. */
    predicate HasBackpressure(buffered: nat): (congested: bool)
      ensures congested <==> 100 * (buffered + 1) > bufferSize * thresholdPercent
    {
      buffered >= bufferSize * thresholdPercent / 100
    }

    constructor (bufferSize: nat, thresholdPercent: nat)
      ensures this.bufferSize == bufferSize && this.thresholdPercent == thresholdPercent
      ensures View() == ZERO && avgProcessingTime == 0
    {
      this.bufferSize, this.thresholdPercent := bufferSize, thresholdPercent;
      requestsSent, requestsReceived, responsesSent, requestsTimeout, sendFailures := 0, 0, 0, 0, 0;
      pendingRequests, maxPendingRequests, backpressureEvents, avgProcessingTime := 0, 0, 0, 0;
    }

    method RecordRequestSent(buffered: nat)
      modifies this
      ensures View() == Step(old(View()), RequestSent(HasBackpressure(buffered))) && unchanged(`avgProcessingTime)
    {
      requestsSent := requestsSent + 1;
      pendingRequests := pendingRequests + 1;
      maxPendingRequests := Max(maxPendingRequests, pendingRequests);
      if HasBackpressure(buffered) { backpressureEvents := backpressureEvents + 1; }
    }

    method RecordRequestReceived()
      modifies this
      ensures View() == Step(old(View()), RequestReceived) && unchanged(`avgProcessingTime)
    {
      requestsReceived := requestsReceived + 1;
    }

    /** The processing time is in nanoseconds; `rnd` is the rounding of the floating-point arithmetic. */
    method RecordResponseSent(processingTime: nat, rnd: real -> real)
      modifies this
      ensures View() == Step(old(View()), ResponseSent)
      ensures avgProcessingTime == MovingAverage.Smoothed(old(avgProcessingTime), processingTime, rnd)
    {
      responsesSent := responsesSent + 1;
      pendingRequests := SaturatingDec(pendingRequests);
      if avgProcessingTime == 0 {
        avgProcessingTime := processingTime;
      } else {
        avgProcessingTime := MovingAverage.Truncated(MovingAverage.Weighted(avgProcessingTime, processingTime, rnd));
      }
    }

    method RecordTimeout()
      modifies this
      ensures View() == Step(old(View()), TimedOut) && unchanged(`avgProcessingTime)
    {
      requestsTimeout := requestsTimeout + 1;
      pendingRequests := SaturatingDec(pendingRequests);
    }

    method RecordSendFailure()
      modifies this
      ensures View() == Step(old(View()), SendFailed) && unchanged(`avgProcessingTime)
    {
      sendFailures := sendFailures + 1;
    }
  }

  // ---------------------------------------------------------------------------------------------
  // The counter as a reflected walk
  // ---------------------------------------------------------------------------------------------

  function Delta(record: Record): int {
    match record
    case RequestSent(_) => 1
    case ResponseSent => -1
    case TimedOut => -1
    case RequestReceived => 0
    case SendFailed => 0
  }

  /** Requests sent minus responses minus timeouts. */
  function Walk(log: seq<Record>): int {
    if log == [] then 0 else Walk(log[..|log| - 1]) + Delta(log[|log| - 1])
  }

  ghost predicate IsLowest(log: seq<Record>, low: int) {
    && (exists i :: 0 <= i <= |log| && low == Walk(log[..i]))
    && (forall i :: 0 <= i <= |log| ==> low <= Walk(log[..i]))
  }

  ghost predicate IsHighestPending(log: seq<Record>, high: nat) {
    && (exists i :: 0 <= i <= |log| && high == Run(log[..i]).pending)
    && (forall i :: 0 <= i <= |log| ==> Run(log[..i]).pending <= high)
  }

  /** The lowest point of the walk so far, computed as the log grows. It is never above the start, zero. */
  function Lowest(log: seq<Record>): int {
    if log == [] then 0
    else
      var low := Lowest(log[..|log| - 1]);
      if Walk(log) < low then Walk(log) else low
  }

  lemma {:induction false} LowestIsLowest(log: seq<Record>)
    ensures IsLowest(log, Lowest(log)) && Lowest(log) <= 0
  {
    assert log[..|log|] == log;
    if log == [] {
    } else {
      var before := log[..|log| - 1];
      LowestIsLowest(before);
      var i :| 0 <= i <= |before| && Lowest(before) == Walk(before[..i]);
      assert before[..i] == log[..i];
      forall j | 0 <= j <= |log| ensures Lowest(log) <= Walk(log[..j]) {
        if j < |log| { assert log[..j] == before[..j]; }
      }
    }
  }

  lemma {:induction false} PendingIsReflected(log: seq<Record>)
    ensures Run(log).pending == Walk(log) - Lowest(log)
  {
    if log == [] {
    } else {
      PendingIsReflected(log[..|log| - 1]);
      LowestIsLowest(log[..|log| - 1]);
    }
  }

  /** Pending is the walk lifted by its lowest point, whatever order the records come in. */
  lemma PendingExactly(log: seq<Record>, low: int)
    requires IsLowest(log, low)
    ensures Run(log).pending == Walk(log) - low && low <= 0
  {
    PendingIsReflected(log);
    LowestIsLowest(log);
    var i :| 0 <= i <= |log| && low == Walk(log[..i]);
    var j :| 0 <= j <= |log| && Lowest(log) == Walk(log[..j]);
  }

  /** The recorded maximum is the largest value pending ever had. */
  lemma {:induction false} MaximumExactly(log: seq<Record>)
    ensures IsHighestPending(log, Run(log).maxPending)
  {
    assert log[..|log|] == log;
    if log == [] {
    } else {
      var before := log[..|log| - 1];
      MaximumExactly(before);
      var i :| 0 <= i <= |before| && Run(before).maxPending == Run(before[..i]).pending;
      assert before[..i] == log[..i];
      forall j | 0 <= j <= |log| ensures Run(log[..j]).pending <= Run(log).maxPending {
        if j < |log| { assert log[..j] == before[..j]; } else { assert log[..j] == log; PendingBelowMaximum(log); }
      }
      if log[|log| - 1].RequestSent? && Run(log).maxPending != Run(before).maxPending {
        assert Run(log).maxPending == Run(log[..|log|]).pending;
      }
    }
  }

  lemma {:induction false} PendingBelowMaximum(log: seq<Record>)
    ensures Run(log).pending <= Run(log).maxPending
  {
    if log == [] {
    } else {
      PendingBelowMaximum(log[..|log| - 1]);
    }
  }

  /** No response and no timeout beyond what was sent: then nothing saturates and pending is the plain difference. */
  lemma PlainDifference(log: seq<Record>)
    requires forall i :: 0 <= i <= |log| ==> 0 <= Walk(log[..i])
    ensures Run(log).pending == Walk(log)
  {
    assert Walk(log[..0]) == 0;
    PendingExactly(log, 0);
  }

  lemma {:induction false} LastCounts(log: seq<Record>)
    requires log != []
    ensures multiset(log) == multiset(log[..|log| - 1]) + multiset{log[|log| - 1]}
  {
    assert log == log[..|log| - 1] + [log[|log| - 1]];
  }

  /** Over every log each plain counter is the number of records of its kind. */
  lemma {:induction false} CountersCount(log: seq<Record>)
    ensures var s, records := Run(log), multiset(log);
            && s.sent == records[RequestSent(true)] + records[RequestSent(false)]
            && s.backpressure == records[RequestSent(true)]
            && s.received == records[RequestReceived]
            && s.responses == records[ResponseSent]
            && s.timeouts == records[TimedOut]
            && s.sendFailures == records[SendFailed]
  {
    if log == [] {
    } else {
      CountersCount(log[..|log| - 1]);
      LastCounts(log);
    }
  }
}
