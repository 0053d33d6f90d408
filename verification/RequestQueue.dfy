/** The queue of requests that wait for the storage to come back, and the loop that drains it. */
module RequestQueueing {
  import opened Clock
  import opened Options

  datatype Priority = Low | Normal | High | Critical

  /** A request with its identity, its payload and the channel its answer goes to. */
  datatype Request = Request(id: nat, command: nat, channel: nat, timeout: nat, priority: Priority)

  datatype Queued = Queued(request: Request, queuedAt: nat, retries: nat)

  function Retained(queue: seq<Queued>, now: nat, maxTime: nat): seq<Queued> {
    if queue == [] then []
    else
      var last := queue[|queue| - 1];
      Retained(queue[..|queue| - 1], now, maxTime) + (if Since(last.queuedAt, now) < maxTime then [last] else [])
  }

  // ---------------------------------------------------------------------------------------------
  // The queue over a whole run
  // ---------------------------------------------------------------------------------------------

  /** Both operations drop what has expired `at` some instant; an accepted request is stamped later. */
  datatype Op = Enqueue(request: Request, retries: nat, at: nat, stampedAt: nat) | Dequeue(at: nat)

  function End(op: Op): nat {
    if op.Enqueue? then op.stampedAt else op.at
  }

  /** How a request left the queue. */
  datatype Departure = Departure(queued: Queued, at: nat, expired: bool)

  /** The queue together with everything that entered and left it, in order. */
  datatype Ledger = Ledger(maxSize: nat, maxTime: nat, queue: seq<Queued>, accepted: seq<Queued>,
                           departed: seq<Departure>, clock: nat)

  function Empty(maxSize: nat, maxTime: nat): Ledger {
    Ledger(maxSize, maxTime, [], [], [], 0)
  }

  /** How many entries at the front have expired. */
  function Expired(queue: seq<Queued>, now: nat, maxTime: nat): (k: nat)
    ensures k <= |queue|
  {
    if queue != [] && Since(queue[0].queuedAt, now) >= maxTime then 1 + Expired(queue[1..], now, maxTime) else 0
  }

  function Expirations(queue: seq<Queued>, now: nat): seq<Departure> {
    seq(|queue|, i requires 0 <= i < |queue| => Departure(queue[i], now, true))
  }

  function Purge(l: Ledger, now: nat): Ledger {
    var k := Expired(l.queue, now, l.maxTime);
    l.(queue := l.queue[k..], departed := l.departed + Expirations(l.queue[..k], now), clock := now)
  }

  function Accept(l: Ledger, entry: Queued): Ledger {
    l.(queue := l.queue + [entry], accepted := l.accepted + [entry], clock := entry.queuedAt)
  }

  function Take(l: Ledger, now: nat): Ledger
    requires l.queue != []
  {
    l.(queue := l.queue[1..], departed := l.departed + [Departure(l.queue[0], now, false)])
  }

  function Step(l: Ledger, op: Op): Ledger {
    var p := Purge(l, op.at);
    match op
    case Enqueue(request, retries, _, stampedAt) =>
      if |p.queue| < l.maxSize then Accept(p, Queued(request, stampedAt, retries)) else p
    case Dequeue(now) => if p.queue != [] then Take(p, now) else p
  }

  function Run(l: Ledger, ops: seq<Op>): Ledger {
    if ops == [] then l else Step(Run(l, ops[..|ops| - 1]), ops[|ops| - 1])
  }

  /** The clock never goes back. */
  predicate InOrder(ops: seq<Op>) {
    && (forall i :: 0 <= i < |ops| ==> ops[i].at <= End(ops[i]))
    && (forall i, j :: 0 <= i < j < |ops| ==> End(ops[i]) <= ops[j].at)
  }

  predicate Sorted(queue: seq<Queued>) {
    forall i, j :: 0 <= i < j < |queue| ==> queue[i].queuedAt <= queue[j].queuedAt
  }

  /** Departed entries, oldest first, followed by the queue: exactly what was accepted, in order. */
  predicate Balanced(l: Ledger) {
    && Sorted(l.accepted)
    && (forall i :: 0 <= i < |l.accepted| ==> l.accepted[i].queuedAt <= l.clock)
    && |l.queue| <= l.maxSize
    && |l.accepted| == |l.departed| + |l.queue|
    && l.queue == l.accepted[|l.departed|..]
    && (forall i :: 0 <= i < |l.departed| ==> l.departed[i].queued == l.accepted[i])
    && (forall i :: 0 <= i < |l.departed| ==>
          (l.departed[i].expired <==> Since(l.departed[i].queued.queuedAt, l.departed[i].at) >= l.maxTime))
  }

  lemma {:induction false} RetainedSplits(a: seq<Queued>, b: seq<Queued>, now: nat, maxTime: nat)
    ensures Retained(a + b, now, maxTime) == Retained(a, now, maxTime) + Retained(b, now, maxTime)
  {
    if b == [] { assert a + b == a; }
    else {
      assert (a + b)[..|a + b| - 1] == a + b[..|b| - 1];
      RetainedSplits(a, b[..|b| - 1], now, maxTime);
    }
  }

  lemma {:induction false} AllFresh(queue: seq<Queued>, now: nat, maxTime: nat)
    requires forall i :: 0 <= i < |queue| ==> Since(queue[i].queuedAt, now) < maxTime
    ensures Retained(queue, now, maxTime) == queue
  {
    if queue == [] {
    } else {
      AllFresh(queue[..|queue| - 1], now, maxTime);
    }
  }

  lemma {:induction false} NoneFresh(queue: seq<Queued>, now: nat, maxTime: nat)
    requires forall i :: 0 <= i < |queue| ==> Since(queue[i].queuedAt, now) >= maxTime
    ensures Retained(queue, now, maxTime) == []
  {
    if queue == [] {
    } else {
      NoneFresh(queue[..|queue| - 1], now, maxTime);
    }
  }

  lemma {:induction false} ExpiredComeFirst(queue: seq<Queued>, now: nat, maxTime: nat, i: nat)
    requires Sorted(queue) && i < |queue|
    ensures Since(queue[i].queuedAt, now) >= maxTime <==> i < Expired(queue, now, maxTime)
    decreases i
  {
    if i > 0 {
      assert queue[0].queuedAt <= queue[i].queuedAt;
      if Since(queue[0].queuedAt, now) >= maxTime { ExpiredComeFirst(queue[1..], now, maxTime, i - 1); }
    }
  }

  lemma {:induction false} RetainedIsTheRest(queue: seq<Queued>, now: nat, maxTime: nat)
    requires Sorted(queue)
    ensures Retained(queue, now, maxTime) == queue[Expired(queue, now, maxTime)..]
  {
    var k := Expired(queue, now, maxTime);
    var stale, young := queue[..k], queue[k..];
    forall i | 0 <= i < |stale| ensures Since(stale[i].queuedAt, now) >= maxTime {
      ExpiredComeFirst(queue, now, maxTime, i);
    }
    forall i | 0 <= i < |young| ensures Since(young[i].queuedAt, now) < maxTime {
      ExpiredComeFirst(queue, now, maxTime, k + i);
    }
    assert queue == stale + young;
    RetainedSplits(stale, young, now, maxTime);
    NoneFresh(stale, now, maxTime);
    AllFresh(young, now, maxTime);
  }

  /** On a queue in time order, the expiry filter removes exactly the expired prefix. */
  lemma ExpiryRemovesAPrefix(queue: seq<Queued>, now: nat, maxTime: nat)
    requires Sorted(queue)
    ensures Retained(queue, now, maxTime) == queue[Expired(queue, now, maxTime)..]
    ensures forall i :: 0 <= i < |queue| ==>
              (Since(queue[i].queuedAt, now) >= maxTime <==> i < Expired(queue, now, maxTime))
  {
    RetainedIsTheRest(queue, now, maxTime);
    forall i | 0 <= i < |queue| ensures Since(queue[i].queuedAt, now) >= maxTime <==> i < Expired(queue, now, maxTime) {
      ExpiredComeFirst(queue, now, maxTime, i);
    }
  }

  lemma QueueIsSorted(l: Ledger)
    requires Balanced(l)
    ensures Sorted(l.queue)
  {
  }

  lemma PurgeKeepsBalance(l: Ledger, now: nat)
    requires Balanced(l) && l.clock <= now
    ensures Balanced(Purge(l, now))
    ensures Purge(l, now).queue == Retained(l.queue, now, l.maxTime)
    ensures forall i :: 0 <= i < |Purge(l, now).queue| ==> Since(Purge(l, now).queue[i].queuedAt, now) < l.maxTime
  {
    QueueIsSorted(l);
    ExpiryRemovesAPrefix(l.queue, now, l.maxTime);
    var p := Purge(l, now);
    var k := Expired(l.queue, now, l.maxTime);
    forall i | 0 <= i < |p.departed|
      ensures p.departed[i].queued == p.accepted[i]
      ensures p.departed[i].expired <==> Since(p.departed[i].queued.queuedAt, p.departed[i].at) >= l.maxTime
    {
      if i >= |l.departed| { assert p.departed[i] == Departure(l.queue[i - |l.departed|], now, true); }
    }
  }

  lemma AcceptKeepsBalance(l: Ledger, entry: Queued)
    requires Balanced(l) && |l.queue| < l.maxSize && l.clock <= entry.queuedAt
    ensures Balanced(Accept(l, entry))
  {
  }

  lemma TakeKeepsBalance(l: Ledger, now: nat)
    requires Balanced(l) && l.queue != [] && Since(l.queue[0].queuedAt, now) < l.maxTime
    ensures Balanced(Take(l, now))
  {
    var t := Take(l, now);
    forall i | 0 <= i < |t.departed|
      ensures t.departed[i].queued == t.accepted[i]
      ensures t.departed[i].expired <==> Since(t.departed[i].queued.queuedAt, t.departed[i].at) >= t.maxTime
    {
      if i == |l.departed| { assert t.departed[i] == Departure(l.queue[0], now, false); }
    }
  }

  lemma StepKeepsBalance(l: Ledger, op: Op)
    requires Balanced(l) && l.clock <= op.at <= End(op)
    ensures Balanced(Step(l, op)) && op.at <= Step(l, op).clock <= End(op)
  {
    PurgeKeepsBalance(l, op.at);
    var p := Purge(l, op.at);
    match op
    case Enqueue(request, retries, _, stampedAt) =>
      if |p.queue| < l.maxSize { AcceptKeepsBalance(p, Queued(request, stampedAt, retries)); }
    case Dequeue(now) =>
      if p.queue != [] { TakeKeepsBalance(p, now); }
  }

  /**
   Over every run on a clock that never goes back: timestamps are in order, the queue never exceeds
   its size, and requests leave in the order they came, each at most once, none lost. A request
   leaves as expired exactly when it has waited the maximum time.
   */
  lemma {:induction false} QueueIsFifo(maxSize: nat, maxTime: nat, ops: seq<Op>)
    requires InOrder(ops)
    ensures Balanced(Run(Empty(maxSize, maxTime), ops))
    ensures Run(Empty(maxSize, maxTime), ops).maxTime == maxTime
    ensures Run(Empty(maxSize, maxTime), ops).maxSize == maxSize
    ensures ops != [] ==> Run(Empty(maxSize, maxTime), ops).clock <= End(ops[|ops| - 1])
    ensures ops == [] ==> Run(Empty(maxSize, maxTime), ops).clock == 0
  {
    if ops == [] {
    } else {
      QueueIsFifo(maxSize, maxTime, ops[..|ops| - 1]);
      StepKeepsBalance(Run(Empty(maxSize, maxTime), ops[..|ops| - 1]), ops[|ops| - 1]);
    }
  }

  // ---------------------------------------------------------------------------------------------
  // The queue object
  // ---------------------------------------------------------------------------------------------

  /** The filter over the whole queue. */
  method Retain(queue: seq<Queued>, now: nat, maxTime: nat) returns (kept: seq<Queued>)
    ensures kept == Retained(queue, now, maxTime)
  {
    kept := [];
    for i := 0 to |queue|
      invariant kept == Retained(queue[..i], now, maxTime)
    {
      assert queue[..i + 1][..i] == queue[..i];
      if Since(queue[i].queuedAt, now) < maxTime { kept := kept + [queue[i]]; }
    }
    assert queue[..|queue|] == queue;
  }

  /** The queue itself; `ledger` records its run. The clock readings of a call are its parameters. */
  class RequestQueue {
    const maxSize: nat
    const maxQueueTime: nat
    var queue: seq<Queued>
    ghost var ledger: Ledger

    ghost predicate Valid()
      reads this
    {
      Balanced(ledger) && ledger.queue == queue && ledger.maxSize == maxSize && ledger.maxTime == maxQueueTime
    }

    constructor (maxSize: nat, maxQueueTime: nat)
      ensures Valid() && ledger == Empty(maxSize, maxQueueTime)
    {
      this.maxSize := maxSize;
      this.maxQueueTime := maxQueueTime;
      queue := [];
      ledger := Empty(maxSize, maxQueueTime);
    }

    method RemoveExpired(now: nat)
      requires Valid() && ledger.clock <= now
      modifies this
      ensures Valid() && ledger == Purge(old(ledger), now)
    {
      var kept := Retain(queue, now, maxQueueTime);
      PurgeKeepsBalance(ledger, now);
      queue := kept;
      ledger := Purge(ledger, now);
    }

    method Enqueue(request: Request, retries: nat, now: nat, stampedAt: nat) returns (ok: bool)
      requires Valid() && ledger.clock <= now <= stampedAt
      modifies this
      ensures Valid() && ledger == Step(old(ledger), Op.Enqueue(request, retries, now, stampedAt))
      ensures ok <==> ledger.accepted == old(ledger.accepted) + [Queued(request, stampedAt, retries)]
    {
      StepKeepsBalance(ledger, Op.Enqueue(request, retries, now, stampedAt));
      RemoveExpired(now);
      ok := |queue| < maxSize;
      if ok {
        queue := queue + [Queued(request, stampedAt, retries)];
        ledger := Accept(ledger, Queued(request, stampedAt, retries));
      }
    }

    method Dequeue(now: nat) returns (r: Option<Queued>)
      requires Valid() && ledger.clock <= now
      modifies this
      ensures Valid() && ledger == Step(old(ledger), Op.Dequeue(now))
      ensures r.Some? ==>
                ledger.departed != [] && ledger.departed[|ledger.departed| - 1] == Departure(r.value, now, false)
      ensures r.None? ==> queue == [] && ledger == Purge(old(ledger), now)
    {
      StepKeepsBalance(ledger, Op.Dequeue(now));
      RemoveExpired(now);
      if queue == [] { return None; }
      r := Some(queue[0]);
      queue := queue[1..];
      ledger := Take(ledger, now);
    }
  }

  // ---------------------------------------------------------------------------------------------
  // Who is let in, and who comes out
  // ---------------------------------------------------------------------------------------------

  /** The places of the requests that have not waited the maximum time yet. */
  function Young(queue: seq<Queued>, now: nat, maxTime: nat): set<int> {
    set i | 0 <= i < |queue| && now < queue[i].queuedAt + maxTime
  }

  function Places(lo: int, hi: int): (places: set<int>)
    requires lo <= hi
    ensures |places| == hi - lo
    ensures forall i :: i in places <==> lo <= i < hi
    decreases hi - lo
  {
    if lo == hi then {} else Places(lo, hi - 1) + {hi - 1}
  }

  lemma YoungAreRetained(queue: seq<Queued>, now: nat, maxTime: nat)
    requires Sorted(queue) && forall i :: 0 <= i < |queue| ==> queue[i].queuedAt <= now
    ensures |Young(queue, now, maxTime)| == |queue| - Expired(queue, now, maxTime)
    ensures forall i :: i in Young(queue, now, maxTime) <==> Expired(queue, now, maxTime) <= i < |queue|
  {
    ExpiryRemovesAPrefix(queue, now, maxTime);
    var k := Expired(queue, now, maxTime);
    assert Young(queue, now, maxTime) == Places(k, |queue|);
  }

  lemma WaitingIsSorted(l: Ledger, at: nat)
    requires Balanced(l) && l.clock <= at
    ensures Sorted(l.queue) && forall i :: 0 <= i < |l.queue| ==> l.queue[i].queuedAt <= at
  {
    QueueIsSorted(l);
    assert forall i :: 0 <= i < |l.queue| ==> l.queue[i] == l.accepted[|l.departed| + i];
  }

  /** A request is accepted if and only if fewer than the maximum number wait that have not expired. */
  lemma AcceptedExactly(l: Ledger, request: Request, retries: nat, at: nat, stampedAt: nat)
    requires Balanced(l) && l.clock <= at <= stampedAt
    ensures Step(l, Enqueue(request, retries, at, stampedAt)).accepted ==
            if |Young(l.queue, at, l.maxTime)| < l.maxSize then l.accepted + [Queued(request, stampedAt, retries)]
            else l.accepted
  {
    WaitingIsSorted(l, at);
    YoungAreRetained(l.queue, at, l.maxTime);
  }

  /** A dequeue serves the longest waiting of those that have not expired, and only expires if there is none. */
  lemma ServedExactly(l: Ledger, at: nat)
    requires Balanced(l) && l.clock <= at
    ensures var young := Young(l.queue, at, l.maxTime);
            var t := Step(l, Dequeue(at));
            if young == {} then t.queue == [] && forall i :: |l.departed| <= i < |t.departed| ==> t.departed[i].expired
            else
              && t.departed != []
              && exists i :: i in young && (forall j :: j in young ==> i <= j)
                             && t.departed[|t.departed| - 1] == Departure(l.queue[i], at, false)
  {
    WaitingIsSorted(l, at);
    YoungAreRetained(l.queue, at, l.maxTime);
    var k := Expired(l.queue, at, l.maxTime);
    var young := Young(l.queue, at, l.maxTime);
    if k < |l.queue| {
      assert k in young;
    } else {
      assert young == {};
    }
  }
}
