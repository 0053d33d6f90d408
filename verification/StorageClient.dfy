/**
 The request paths of the storage client: normal with retries, degraded, unavailable, and queued.

 The breaker, the recovery manager and the queue are shared with other tasks, so a call finds them in
 whatever state they are each time it locks one, and is described by its effects: what it sends and,
 object by object, what it tells each of them. Send outcomes and clock readings are arbitrary.
 */
module StorageClient {
  import opened Clock
  import opened Naturals
  import opened Options
  import CB = CircuitBreaking
  import RT = RecoveryTracking
  import opened RequestQueueing

  /** What one send attempt returned. Only errors of the storage itself are not retried. */
  datatype SendOutcome = Delivered(data: nat) | StorageFailure(error: nat) | OtherFailure(error: nat)

  datatype ClientError = SendError(outcome: SendOutcome) | NeverSent | QueueFull | NoFallback(highPriority: bool)

  type Reply = Result<nat, ClientError>

  /**
   The sends of a call with their timeouts, the records it made on the recovery manager and on the
   breaker (true for success), its attempts to enqueue (true if accepted), and the drains it spawned.
   */
  datatype Effects = Effects(
    sends: seq<SendOutcome>, timeouts: seq<nat>, recovery: seq<bool>, breaker: seq<bool>, queue: seq<bool>, drains: nat)

  const NOTHING := Effects([], [], [], [], [], 0)

  /** One recovery record per send, a success exactly for a delivered one. */
  predicate Marked(sends: seq<SendOutcome>, recovery: seq<bool>) {
    |recovery| == |sends| && forall i :: 0 <= i < |sends| ==> recovery[i] == sends[i].Delivered?
  }

  /** The caller gets the outcome of the last send. */
  function ReplyTo(sends: seq<SendOutcome>): Reply {
    if sends == [] then Err(NeverSent)
    else if sends[|sends| - 1].Delivered? then Ok(sends[|sends| - 1].data)
    else Err(SendError(sends[|sends| - 1]))
  }

  // ---------------------------------------------------------------------------------------------
  // Normal operation
  // ---------------------------------------------------------------------------------------------

  /**
   At most `maxRetries + 1` sends, only the last of which may be delivered or fail in the storage;
   one recovery record per send, one breaker verdict, and the reply of the last send.
   */
  predicate NormalCall(maxRetries: nat, timeout: nat, reply: Reply, e: Effects) {
    && |e.sends| <= maxRetries + 1
    && (forall i :: 0 <= i < |e.sends| - 1 ==> e.sends[i].OtherFailure?)
    && Marked(e.sends, e.recovery)
    && e.breaker == [reply.Ok?]
    && e.queue == []
    && e.drains == (if reply.Ok? then 1 else 0)
    && reply == ReplyTo(e.sends)
    && |e.timeouts| == |e.sends|
    && (forall i :: 0 <= i < |e.timeouts| ==> 0 < e.timeouts[i] <= timeout)
  }

  /** Each attempt got the outcome the storage gave, within the time that was left. */
  predicate Tried(sends: seq<SendOutcome>, timeouts: seq<nat>, timeout: nat,
                  outcome: nat -> SendOutcome, clock: nat -> nat)
  {
    && |timeouts| == |sends|
    && (forall i :: 0 <= i < |sends| ==> sends[i] == outcome(i))
    && (forall i :: 0 <= i < |sends| ==> timeouts[i] == timeout - Since(clock(0), clock(i + 1)))
    && (forall i :: 0 <= i < |sends| ==> 0 < timeouts[i] <= timeout)
  }

  predicate AllFailed(sends: seq<SendOutcome>) {
    forall i :: 0 <= i < |sends| ==> sends[i].OtherFailure?
  }

  /** A call that failed before its last attempt met a storage error or ran out of time. */
  predicate GaveUpForCause(maxRetries: nat, timeout: nat, clock: nat -> nat, reply: Reply, sends: seq<SendOutcome>) {
    reply.Err? && |sends| <= maxRetries ==>
      || (sends != [] && sends[|sends| - 1].StorageFailure?)
      || Since(clock(0), clock(|sends| + 1)) >= timeout
  }

  lemma OneMoreTry(sends: seq<SendOutcome>, timeouts: seq<nat>, timeout: nat,
                   outcome: nat -> SendOutcome, clock: nat -> nat)
    requires Tried(sends, timeouts, timeout, outcome, clock)
    requires Since(clock(0), clock(|sends| + 1)) < timeout
    ensures Tried(sends + [outcome(|sends|)], timeouts + [timeout - Since(clock(0), clock(|sends| + 1))],
                  timeout, outcome, clock)
  {
  }

  lemma OneMoreMark(sends: seq<SendOutcome>, recovery: seq<bool>, result: SendOutcome)
    requires Marked(sends, recovery)
    ensures Marked(sends + [result], recovery + [result.Delivered?])
  {
  }

  method SendWithRetries(maxRetries: nat, timeout: nat, outcome: nat -> SendOutcome, clock: nat -> nat)
    returns (reply: Reply, e: Effects)
    ensures NormalCall(maxRetries, timeout, reply, e)
    ensures Tried(e.sends, e.timeouts, timeout, outcome, clock)
    ensures GaveUpForCause(maxRetries, timeout, clock, reply, e.sends)
  {
    var start := clock(0);
    reply := Err(NeverSent);
    var sends: seq<SendOutcome>, timeouts: seq<nat>, recovery: seq<bool> := [], [], [];
    var attempt := 0;
    while attempt <= maxRetries
      invariant |sends| == attempt <= maxRetries + 1
      invariant Marked(sends, recovery) && AllFailed(sends)
      invariant Tried(sends, timeouts, timeout, outcome, clock)
      invariant reply == ReplyTo(sends)
    {
      var elapsed := Since(start, clock(attempt + 1));
      if elapsed >= timeout { break; }
      var result := outcome(attempt);
      OneMoreTry(sends, timeouts, timeout, outcome, clock);
      OneMoreMark(sends, recovery, result);
      sends, timeouts := sends + [result], timeouts + [timeout - elapsed];
      if result.Delivered? {
        return Ok(result.data), Effects(sends, timeouts, recovery + [true], [true], [], 1);
      }
      reply := Err(SendError(result));
      recovery := recovery + [false];
      if result.StorageFailure? { break; }
      attempt := attempt + 1;
    }
    e := Effects(sends, timeouts, recovery, [false], [], 0);
  }

  // ---------------------------------------------------------------------------------------------
  // Degraded, unavailable and queued
  // ---------------------------------------------------------------------------------------------

  /**
   At least one and at most `min(maxRetries, 2) + 1` sends, all with the same capped timeout, until
   one is delivered.
   */
  predicate DegradedCall(maxRetries: nat, timeout: nat, reply: Reply, e: Effects) {
    && 1 <= |e.sends| <= Min(maxRetries, 2) + 1
    && (forall i :: 0 <= i < |e.sends| - 1 ==> !e.sends[i].Delivered?)
    && (e.sends[|e.sends| - 1].Delivered? || |e.sends| == Min(maxRetries, 2) + 1)
    && Marked(e.sends, e.recovery)
    && e.breaker == [] && e.queue == [] && e.drains == 0
    && reply == ReplyTo(e.sends)
    && |e.timeouts| == |e.sends|
    && (forall i :: 0 <= i < |e.timeouts| ==> e.timeouts[i] == Min(timeout, 10 * SECOND))
  }

  method HandleDegradedStorage(maxRetries: nat, timeout: nat, outcome: nat -> SendOutcome)
    returns (reply: Reply, e: Effects)
    ensures DegradedCall(maxRetries, timeout, reply, e)
    ensures forall i :: 0 <= i < |e.sends| ==> e.sends[i] == outcome(i)
  {
    var degradedTimeout := Min(timeout, 10 * SECOND);
    var degradedRetries := Min(maxRetries, 2);
    var sends: seq<SendOutcome>, timeouts: seq<nat>, recovery: seq<bool> := [], [], [];
    reply := Err(NeverSent);
    for attempt := 0 to degradedRetries + 1
      invariant |sends| == |timeouts| == attempt && Marked(sends, recovery)
      invariant reply == ReplyTo(sends)
      invariant forall i :: 0 <= i < attempt ==> !sends[i].Delivered? && sends[i] == outcome(i)
      invariant forall i :: 0 <= i < attempt ==> timeouts[i] == degradedTimeout
    {
      var result := outcome(attempt);
      sends, timeouts := sends + [result], timeouts + [degradedTimeout];
      if result.Delivered? {
        return Ok(result.data), Effects(sends, timeouts, recovery + [true], [], [], 0);
      }
      recovery := recovery + [false];
      reply := Err(SendError(result));
    }
    e := Effects(sends, timeouts, recovery, [], [], 0);
  }

  predicate IsHigh(priority: Priority) {
    priority.High? || priority.Critical?
  }

  function Refusal(priority: Priority, accepted: bool): Reply {
    Err(if accepted then NoFallback(IsHigh(priority)) else QueueFull)
  }

  /** The queue accepts a request if it is below its size once the expired ones are gone. */
  predicate HasRoom(l: Ledger, now: nat) {
    |Purge(l, now).queue| < l.maxSize
  }

  /** No send; one attempt to enqueue, and always an error, even when the request was accepted. */
  predicate QueuedCall(room: bool, priority: Priority, reply: Reply, e: Effects) {
    e == NOTHING.(queue := [room]) && reply == Refusal(priority, room)
  }

  method QueueRequestForLater(request: Request, l: Ledger, now: nat, stampedAt: nat)
    returns (reply: Reply, e: Effects, after: Ledger)
    ensures QueuedCall(HasRoom(l, now), request.priority, reply, e)
    ensures after == Step(l, Enqueue(request, 0, now, stampedAt))
  {
    after := Purge(l, now);
    if |after.queue| >= l.maxSize { return Err(QueueFull), NOTHING.(queue := [false]), after; }
    after := Accept(after, Queued(request, stampedAt, 0));
    e := NOTHING.(queue := [true]);
    if request.priority == Critical || request.priority == High { return Err(NoFallback(true)), e, after; }
    return Err(NoFallback(false)), e, after;
  }

  /**
   At most one send, made when recovery is due; only its success is recorded. Without a delivered
   send the request is queued.
   */
  predicate UnavailableCall(due: bool, room: bool, request: Request, reply: Reply, e: Effects) {
    && |e.sends| == (if due then 1 else 0)
    && e.timeouts == (if due then [Min(request.timeout, 5 * SECOND)] else [])
    && e.breaker == [] && e.drains == 0
    && (if due && e.sends[0].Delivered? then
          e.recovery == [true] && e.queue == [] && reply == ReplyTo(e.sends)
        else
          e.recovery == [] && e.queue == [room] && reply == Refusal(request.priority, room))
  }

  method HandleStorageUnavailable(w: World, request: Request, outcome: SendOutcome)
    returns (reply: Reply, e: Effects, after: Ledger)
    ensures UnavailableCall(Due(w), HasRoom(w.ledger, w.purgedAt), request, reply, e)
    ensures Due(w) ==> e.sends == [outcome]
    ensures after == LedgerAfter(request, w, e)
  {
    var sends: seq<SendOutcome>, timeouts: seq<nat> := [], [];
    if RT.ShouldAttempt(w.again, w.askedAt) {
      sends, timeouts := [outcome], [Min(request.timeout, 5 * SECOND)];
      if outcome.Delivered? {
        return Ok(outcome.data), Effects(sends, timeouts, [true], [], [], 0), w.ledger;
      }
    }
    reply, e, after := QueueRequestForLater(request, w.ledger, w.purgedAt, w.stampedAt);
    e := e.(sends := sends, timeouts := timeouts);
  }

  // ---------------------------------------------------------------------------------------------
  // A call as a whole
  // ---------------------------------------------------------------------------------------------

  /**
   The shared objects as the call finds them, each at the moment it locks it: the recovery manager
   when the call begins and when it asks whether recovery is due, the breaker, and the queue.
   */
  datatype World = World(recovery: RT.Recovery, again: RT.Recovery, breaker: CB.Breaker, ledger: Ledger,
                         askedAt: nat, purgedAt: nat, stampedAt: nat)

  predicate Due(w: World) {
    RT.ShouldAttempt(w.again, w.askedAt)
  }

  /** The breaker is consulted only when the storage counts as available. */
  predicate Consults(w: World) {
    w.recovery.state != RT.Unavailable && w.recovery.state != RT.Degraded
  }

  predicate TakesNormalPath(w: World) {
    Consults(w) && CB.Allowed(w.breaker, w.askedAt)
  }

  /** The queue after the call: unchanged, or one enqueue later. */
  function LedgerAfter(request: Request, w: World, e: Effects): Ledger {
    if e.queue == [] then w.ledger else Step(w.ledger, Enqueue(request, 0, w.purgedAt, w.stampedAt))
  }

  predicate Contract(maxRetries: nat, request: Request, w: World, reply: Reply, e: Effects) {
    if w.recovery.state == RT.Unavailable then
      UnavailableCall(Due(w), HasRoom(w.ledger, w.purgedAt), request, reply, e)
    else if w.recovery.state == RT.Degraded then DegradedCall(maxRetries, request.timeout, reply, e)
    else if TakesNormalPath(w) then NormalCall(maxRetries, request.timeout, reply, e)
    else QueuedCall(HasRoom(w.ledger, w.purgedAt), request.priority, reply, e)
  }

  method SendRequestWithPriority(maxRetries: nat, request: Request, w: World,
                                 outcome: nat -> SendOutcome, clock: nat -> nat)
    returns (reply: Reply, e: Effects, after: Ledger)
    ensures Contract(maxRetries, request, w, reply, e)
    ensures after == LedgerAfter(request, w, e)
    ensures forall i :: 0 <= i < |e.sends| ==> e.sends[i] == outcome(i)
    ensures TakesNormalPath(w) ==>
              && Tried(e.sends, e.timeouts, request.timeout, outcome, clock)
              && GaveUpForCause(maxRetries, request.timeout, clock, reply, e.sends)
  {
    after := w.ledger;
    match w.recovery.state
    case Unavailable => reply, e, after := HandleStorageUnavailable(w, request, outcome(0));
    case Degraded => reply, e := HandleDegradedStorage(maxRetries, request.timeout, outcome);
    case Healthy | Recovering =>
      if !CB.Allowed(w.breaker, w.askedAt) {
        reply, e, after := QueueRequestForLater(request, w.ledger, w.purgedAt, w.stampedAt);
      } else {
        reply, e := SendWithRetries(maxRetries, request.timeout, outcome, clock);
      }
  }
}
