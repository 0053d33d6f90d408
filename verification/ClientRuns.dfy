/**
 The breaker, the recovery manager and the queue of one client over a whole run: calls one after the
 other, with the turns of any number of drains in between.
 */
module ClientRuns {
  import opened Naturals
  import opened Options
  import CB = CircuitBreaking
  import RT = RecoveryTracking
  import opened QueueDrain
  import opened RequestQueueing
  import opened StorageClient

  datatype Settings = Settings(maxRetries: nat, threshold: nat, delay: nat, tripAfter: nat, timeout: nat,
                               maxSize: nat, maxTime: nat)

  datatype Shared = Shared(recovery: RT.Recovery, breaker: CB.Breaker, ledger: Ledger)

  function FreshClient(c: Settings): Shared {
    Shared(RT.Fresh(c.threshold, c.delay), CB.Fresh(c.tripAfter, c.timeout), Empty(c.maxSize, c.maxTime))
  }

  /** A finished call, with the clock readings of its records on the breaker and the recovery manager. */
  datatype CallRecord = CallRecord(request: Request, w: World, reply: Reply, e: Effects, toldAt: nat, recordedAt: nat)

  /** A call, or one turn of a drain and the request it served, if there was one. */
  datatype Event = Called(call: CallRecord) | Took(turn: Turn, served: Option<Served>)

  function RecoveryLog(c: CallRecord): seq<RT.Record> {
    seq(|c.e.recovery|, i requires 0 <= i < |c.e.recovery| =>
      if c.e.recovery[i] then RT.Succeeded(c.recordedAt) else RT.Broke)
  }

  function BreakerLog(c: CallRecord): seq<CB.Call> {
    if !Consults(c.w) then []
    else if c.e.breaker == [] then [CB.Allow(c.w.askedAt)]
    else [CB.Allow(c.w.askedAt), if c.e.breaker[0] then CB.Success(c.toldAt) else CB.Failure(c.toldAt)]
  }

  function QueueAfter(l: Ledger, event: Event): Ledger {
    match event
    case Called(c) => LedgerAfter(c.request, c.w, c.e)
    case Took(turn, _) => AfterTurn(l, turn)
  }

  function After(s: Shared, event: Event): Shared {
    var t := s.(ledger := QueueAfter(s.ledger, event));
    match event
    case Called(c) =>
      t.(recovery := RT.Run(s.recovery, RecoveryLog(c)), breaker := CB.Run(s.breaker, BreakerLog(c)))
    case Took(_, _) => t
  }

  /** The call found the queue as it was and did what its contract says. */
  predicate MeetsQueue(maxRetries: nat, l: Ledger, c: CallRecord) {
    && c.w.ledger == l && l.clock <= c.w.purgedAt <= c.w.stampedAt
    && Contract(maxRetries, c.request, c.w, c.reply, c.e)
  }

  /** And so it found the other shared objects. */
  predicate LegalCall(maxRetries: nat, s: Shared, c: CallRecord) {
    && c.w.recovery == c.w.again == s.recovery && c.w.breaker == s.breaker
    && MeetsQueue(maxRetries, s.ledger, c)
  }

  /** The turn dequeued once and served what it got. */
  predicate LegalTurn(l: Ledger, turn: Turn, served: Option<Served>) {
    && turn.others == [] && l.clock <= turn.at
    && (served.None? <==> Waiting(l, turn) == [])
    && (served.Some? ==> Turned(l, turn, served.value))
  }

  predicate Legal(maxRetries: nat, s: Shared, event: Event) {
    match event
    case Called(c) => LegalCall(maxRetries, s, c)
    case Took(turn, served) => LegalTurn(s.ledger, turn, served)
  }

  function SharedAfter(s: Shared, run: seq<Event>): Shared {
    if run == [] then s else After(SharedAfter(s, run[..|run| - 1]), run[|run| - 1])
  }

  predicate LegalRun(maxRetries: nat, s: Shared, run: seq<Event>) {
    run == [] ||
    (&& LegalRun(maxRetries, s, run[..|run| - 1])
     && Legal(maxRetries, SharedAfter(s, run[..|run| - 1]), run[|run| - 1]))
  }

  // ---------------------------------------------------------------------------------------------
  // A storage that never answers
  // ---------------------------------------------------------------------------------------------

  predicate Undelivered(event: Event) {
    event.Called? ==> forall i :: 0 <= i < |event.call.e.sends| ==> !event.call.e.sends[i].Delivered?
  }

  /** A call that passed the recovery check and the breaker. */
  predicate IsNormal(event: Event) {
    event.Called? && TakesNormalPath(event.call.w)
  }

  /** Such a call whose time was over before its first send. */
  predicate IsImpatient(event: Event) {
    IsNormal(event) && event.call.e.sends == []
  }

  function Normal(run: seq<Event>): nat {
    if run == [] then 0 else Normal(run[..|run| - 1]) + if IsNormal(run[|run| - 1]) then 1 else 0
  }

  function Impatient(run: seq<Event>): nat {
    if run == [] then 0 else Impatient(run[..|run| - 1]) + if IsImpatient(run[|run| - 1]) then 1 else 0
  }

  function Patience(threshold: nat): nat {
    Max(threshold / 2, 1)
  }

  /** How the failures the breaker counted relate to those the recovery manager counted. */
  predicate Tally(s: Shared, normal: nat, impatient: nat) {
    && s.recovery.state != RT.Recovering
    && s.breaker.failures == normal
    && (s.breaker.state == CB.Closed <==> normal < CB.Tripping(s.breaker.threshold))
    && impatient <= normal <= Patience(s.recovery.threshold) + impatient
    && (s.recovery.state == RT.Healthy ==> normal <= s.recovery.failures + impatient)
    && (s.recovery.state == RT.Healthy ==> s.recovery.failures < Patience(s.recovery.threshold))
  }

  lemma {:induction false} FailuresOnly(r: RT.Recovery, log: seq<RT.Record>)
    requires r.state != RT.Recovering && forall i :: 0 <= i < |log| ==> log[i] == RT.Broke
    ensures var t := RT.Run(r, log);
            && t.threshold == r.threshold && t.failures == r.failures + |log| && t.state != RT.Recovering
            && (t.state == RT.Healthy ==>
                  r.state == RT.Healthy && (log != [] ==> t.failures < Patience(r.threshold)))
  {
    if log == [] {
    } else {
      FailuresOnly(r, log[..|log| - 1]);
    }
  }

  lemma UnansweredBreaks(maxRetries: nat, s: Shared, c: CallRecord)
    requires LegalCall(maxRetries, s, c) && Undelivered(Called(c))
    ensures forall i :: 0 <= i < |RecoveryLog(c)| ==> RecoveryLog(c)[i] == RT.Broke
    ensures TakesNormalPath(c.w) ==> c.e.breaker == [false] && |RecoveryLog(c)| == |c.e.sends|
    ensures !TakesNormalPath(c.w) ==> c.e.breaker == []
  {
  }

  lemma BreakerAfter(b: CB.Breaker, c: CallRecord)
    ensures CB.Run(b, BreakerLog(c)) ==
            if !Consults(c.w) then b
            else
              var asked := CB.Step(b, CB.Allow(c.w.askedAt));
              if c.e.breaker == [] then asked
              else CB.Step(asked, if c.e.breaker[0] then CB.Success(c.toldAt) else CB.Failure(c.toldAt))
  {
    var log := BreakerLog(c);
    if Consults(c.w) && c.e.breaker != [] {
      assert log[..1] == [CB.Allow(c.w.askedAt)] && log[..1][..0] == [];
      assert CB.Run(b, log[..1]) == CB.Step(b, CB.Allow(c.w.askedAt));
    } else if Consults(c.w) {
      assert log[..0] == [];
    }
  }

  lemma CallKeepsTally(maxRetries: nat, s: Shared, c: CallRecord, normal: nat, impatient: nat)
    requires Tally(s, normal, impatient) && LegalCall(maxRetries, s, c) && Undelivered(Called(c))
    ensures var t := After(s, Called(c));
            && Tally(t, normal + (if IsNormal(Called(c)) then 1 else 0),
                 impatient + (if IsImpatient(Called(c)) then 1 else 0))
            && t.recovery.threshold == s.recovery.threshold && t.breaker.threshold == s.breaker.threshold
  {
    UnansweredBreaks(maxRetries, s, c);
    FailuresOnly(s.recovery, RecoveryLog(c));
    BreakerAfter(s.breaker, c);
  }

  /**
   As long as the storage answers nothing, the breaker counts exactly the calls that reached the
   normal path, and is closed if and only if these are fewer than its threshold. The recovery manager diverts
   calls early: apart from the calls that had no time for a send, at most `max(T / 2, 1)` calls
   reach that path, where `T` is the recovery threshold. With the default thresholds, five and
   five, the breaker opens before the first answer only with the help of calls without a send.
   */
  lemma {:induction false} BreakerUntilFirstAnswer(c: Settings, run: seq<Event>)
    requires LegalRun(c.maxRetries, FreshClient(c), run)
    requires forall i :: 0 <= i < |run| ==> Undelivered(run[i])
    ensures var s := SharedAfter(FreshClient(c), run);
            && s.breaker.failures == Normal(run) <= Patience(c.threshold) + Impatient(run)
            && (s.breaker.state == CB.Closed <==> Normal(run) < CB.Tripping(c.tripAfter))
            && s.recovery.threshold == c.threshold && s.breaker.threshold == c.tripAfter
            && Tally(s, Normal(run), Impatient(run))
  {
    if run == [] {
    } else {
      var front, last := run[..|run| - 1], run[|run| - 1];
      BreakerUntilFirstAnswer(c, front);
      if last.Called? {
        CallKeepsTally(c.maxRetries, SharedAfter(FreshClient(c), front), last.call, Normal(front), Impatient(front));
      }
    }
  }

  /** So without such calls a breaker with the higher threshold never opens before the first answer. */
  lemma PatientClientsKeepTheBreakerClosed(c: Settings, run: seq<Event>)
    requires LegalRun(c.maxRetries, FreshClient(c), run)
    requires forall i :: 0 <= i < |run| ==> Undelivered(run[i])
    requires Impatient(run) == 0 && Patience(c.threshold) < CB.Tripping(c.tripAfter)
    ensures SharedAfter(FreshClient(c), run).breaker.state == CB.Closed
  {
    BreakerUntilFirstAnswer(c, run);
  }

  // A call with a timeout of zero.

  function ZeroCall(s: Shared, request: Request, at: nat): CallRecord {
    var w := World(s.recovery, s.recovery, s.breaker, s.ledger, at, s.ledger.clock, s.ledger.clock);
    CallRecord(request.(timeout := 0), w, Err(NeverSent), NOTHING.(breaker := [false]), at, at)
  }

  lemma ZeroCallOnlyBlamesTheBreaker(maxRetries: nat, s: Shared, request: Request, at: nat)
    requires s.recovery.state == RT.Healthy && s.breaker.state == CB.Closed
    ensures var c := ZeroCall(s, request, at);
            && LegalCall(maxRetries, s, c) && Undelivered(Called(c)) && IsImpatient(Called(c))
            && After(s, Called(c)).recovery == s.recovery
            && After(s, Called(c)).breaker == CB.Step(s.breaker, CB.Failure(at))
  {
    var c := ZeroCall(s, request, at);
    assert RecoveryLog(c) == [];
    BreakerAfter(s.breaker, c);
  }

  lemma AppendsLegally(maxRetries: nat, s: Shared, run: seq<Event>, event: Event)
    requires LegalRun(maxRetries, s, run) && Legal(maxRetries, SharedAfter(s, run), event)
    ensures LegalRun(maxRetries, s, run + [event])
    ensures SharedAfter(s, run + [event]) == After(SharedAfter(s, run), event)
    ensures Impatient(run + [event]) == Impatient(run) + if IsImpatient(event) then 1 else 0
  {
    assert (run + [event])[..|run|] == run;
  }

  /**
   With them it does open, for every setting, while the recovery manager is still healthy and has
   not counted a single failure.
   */
  lemma {:induction false} ZeroTimeoutsOpenTheBreaker(c: Settings, request: Request, n: nat) returns (run: seq<Event>)
    requires n <= CB.Tripping(c.tripAfter)
    ensures LegalRun(c.maxRetries, FreshClient(c), run) && |run| == n == Impatient(run)
    ensures forall i :: 0 <= i < |run| ==> Undelivered(run[i])
    ensures var s := SharedAfter(FreshClient(c), run);
            && s.recovery == RT.Fresh(c.threshold, c.delay)
            && s.breaker.failures == n && s.breaker.threshold == c.tripAfter
            && s.breaker.state == if n < CB.Tripping(c.tripAfter) then CB.Closed else CB.Open
  {
    if n == 0 {
      run := [];
    } else {
      var front := ZeroTimeoutsOpenTheBreaker(c, request, n - 1);
      var s := SharedAfter(FreshClient(c), front);
      ZeroCallOnlyBlamesTheBreaker(c.maxRetries, s, request, 0);
      AppendsLegally(c.maxRetries, FreshClient(c), front, Called(ZeroCall(s, request, 0)));
      run := front + [Called(ZeroCall(s, request, 0))];
    }
  }

  // ---------------------------------------------------------------------------------------------
  // What becomes of a queued request
  // ---------------------------------------------------------------------------------------------

  function PromisedBy(event: Event): seq<Queued> {
    if event.Called? && event.call.reply.Err? && event.call.reply.error.NoFallback?
    then [Queued(event.call.request, event.call.w.stampedAt, 0)] else []
  }

  function AnsweredBy(event: Event): seq<Served> {
    if event.Took? && event.served.Some? then [event.served.value] else []
  }

  /** The requests of the calls that were told there is no fallback, in order. */
  function Promised(run: seq<Event>): seq<Queued> {
    if run == [] then [] else Promised(run[..|run| - 1]) + PromisedBy(run[|run| - 1])
  }

  /** What all drains served, in order. */
  function Answers(run: seq<Event>): seq<Served> {
    if run == [] then [] else Answers(run[..|run| - 1]) + AnsweredBy(run[|run| - 1])
  }

  function Entries(served: seq<Served>): seq<Queued> {
    seq(|served|, i requires 0 <= i < |served| => served[i].entry)
  }

  /** The requests that left the queue before they expired. */
  function Unexpired(departed: seq<Departure>): seq<Queued> {
    if departed == [] then []
    else
      var last := departed[|departed| - 1];
      Unexpired(departed[..|departed| - 1]) + if last.expired then [] else [last.queued]
  }

  lemma {:induction false} ExpirationsAreNoAnswers(departed: seq<Departure>, queue: seq<Queued>, now: nat)
    ensures Unexpired(departed + Expirations(queue, now)) == Unexpired(departed)
  {
    if queue == [] {
      assert departed + Expirations(queue, now) == departed;
    } else {
      var front := queue[..|queue| - 1];
      var all := departed + Expirations(queue, now);
      assert all[..|all| - 1] == departed + Expirations(front, now);
      ExpirationsAreNoAnswers(departed, front, now);
    }
  }

  /**
   A run of calls and drains seen from the queue: each call stands where it locked the queue. What it
   found in the other shared objects, at other times, is arbitrary, so calls may overlap.
   */
  predicate QueueRun(maxRetries: nat, l: Ledger, run: seq<Event>) {
    run == [] ||
    (&& QueueRun(maxRetries, l, run[..|run| - 1])
     && OnQueue(maxRetries, QueueAt(l, run[..|run| - 1]), run[|run| - 1]))
  }

  predicate OnQueue(maxRetries: nat, l: Ledger, event: Event) {
    match event
    case Called(c) => MeetsQueue(maxRetries, l, c)
    case Took(turn, served) => LegalTurn(l, turn, served)
  }

  function QueueAt(l: Ledger, run: seq<Event>): Ledger {
    if run == [] then l else QueueAfter(QueueAt(l, run[..|run| - 1]), run[|run| - 1])
  }

  /** The runs of calls one after the other are such runs. */
  lemma {:induction false} LegalRunsAreQueueRuns(maxRetries: nat, s: Shared, run: seq<Event>)
    requires LegalRun(maxRetries, s, run)
    ensures QueueRun(maxRetries, s.ledger, run) && QueueAt(s.ledger, run) == SharedAfter(s, run).ledger
  {
    if run == [] {
    } else {
      LegalRunsAreQueueRuns(maxRetries, s, run[..|run| - 1]);
    }
  }

  predicate Accounted(l: Ledger, promised: seq<Queued>, answers: seq<Served>) {
    && l.accepted == promised
    && Unexpired(l.departed) == Entries(answers)
    && forall i :: 0 <= i < |answers| ==> ServedOnce(answers[i])
  }

  lemma PurgeKeepsAccount(l: Ledger, now: nat)
    ensures Purge(l, now).accepted == l.accepted
    ensures Unexpired(Purge(l, now).departed) == Unexpired(l.departed)
  {
    ExpirationsAreNoAnswers(l.departed, l.queue[..Expired(l.queue, now, l.maxTime)], now);
  }

  lemma CallKeepsAccount(maxRetries: nat, l: Ledger, c: CallRecord, promised: seq<Queued>, answers: seq<Served>)
    requires MeetsQueue(maxRetries, l, c) && Accounted(l, promised, answers)
    ensures Accounted(QueueAfter(l, Called(c)), promised + PromisedBy(Called(c)), answers + AnsweredBy(Called(c)))
  {
    assert answers + [] == answers && promised + [] == promised;
    PurgeKeepsAccount(l, c.w.purgedAt);
  }

  lemma TurnKeepsAccount(l: Ledger, turn: Turn, served: Option<Served>, promised: seq<Queued>, answers: seq<Served>)
    requires LegalTurn(l, turn, served) && Accounted(l, promised, answers)
    ensures var event := Took(turn, served);
            Accounted(QueueAfter(l, event), promised + PromisedBy(event), answers + AnsweredBy(event))
  {
    assert answers + [] == answers && promised + [] == promised;
    var p := Purge(l, turn.at);
    assert Run(l, turn.others) == l;
    PurgeKeepsAccount(l, turn.at);
    if served.Some? {
      var more := answers + [served.value];
      assert Take(p, turn.at).departed[..|p.departed|] == p.departed;
      assert Entries(more) == Entries(answers) + [served.value.entry];
    }
  }

  lemma EventKeepsAccount(maxRetries: nat, l: Ledger, event: Event, promised: seq<Queued>, answers: seq<Served>)
    requires OnQueue(maxRetries, l, event) && Accounted(l, promised, answers)
    ensures Accounted(QueueAfter(l, event), promised + PromisedBy(event), answers + AnsweredBy(event))
  {
    match event
    case Called(call) => CallKeepsAccount(maxRetries, l, call, promised, answers);
    case Took(turn, served) => TurnKeepsAccount(l, turn, served, promised, answers);
  }

  lemma EventKeepsBalance(maxRetries: nat, l: Ledger, event: Event)
    requires Balanced(l) && OnQueue(maxRetries, l, event)
    ensures Balanced(QueueAfter(l, event))
  {
    match event
    case Called(c) =>
      if c.e.queue != [] { StepKeepsBalance(l, Enqueue(c.request, 0, c.w.purgedAt, c.w.stampedAt)); }
    case Took(turn, _) => TurnKeepsBalance(l, turn);
  }

  lemma {:induction false} RunKeepsBalance(maxRetries: nat, l: Ledger, run: seq<Event>)
    requires Balanced(l) && QueueRun(maxRetries, l, run)
    ensures Balanced(QueueAt(l, run))
  {
    if run == [] {
    } else {
      RunKeepsBalance(maxRetries, l, run[..|run| - 1]);
      EventKeepsBalance(maxRetries, QueueAt(l, run[..|run| - 1]), run[|run| - 1]);
    }
  }

  lemma {:induction false} RunKeepsAccount(maxRetries: nat, l: Ledger, run: seq<Event>)
    requires Accounted(l, [], []) && QueueRun(maxRetries, l, run)
    ensures Accounted(QueueAt(l, run), Promised(run), Answers(run))
  {
    if run == [] {
    } else {
      var front, last := run[..|run| - 1], run[|run| - 1];
      RunKeepsAccount(maxRetries, l, front);
      EventKeepsAccount(maxRetries, QueueAt(l, front), last, Promised(front), Answers(front));
    }
  }

  lemma {:induction false} RankOfUnexpired(departed: seq<Departure>, i: nat)
    requires i < |departed| && !departed[i].expired
    ensures |Unexpired(departed[..i])| < |Unexpired(departed)|
    ensures Unexpired(departed)[|Unexpired(departed[..i])|] == departed[i].queued
  {
    var n := |departed| - 1;
    if i == n {
    } else {
      RankOfUnexpired(departed[..n], i);
      assert departed[..n][..i] == departed[..i];
    }
  }

  /** The answer to the `i`-th departure is the one at its rank among the unexpired ones. */
  function Rank(l: Ledger, i: nat): nat
    requires i <= |l.departed|
  {
    |Unexpired(l.departed[..i])|
  }

  /** The request at place `i` is still waiting, has expired, or was served once by the answer at its rank. */
  predicate Fate(l: Ledger, entry: Queued, answers: seq<Served>, i: nat) {
    if i >= |l.departed| then i - |l.departed| < |l.queue| && l.queue[i - |l.departed|] == entry
    else
      && l.departed[i].queued == entry
      && (!l.departed[i].expired ==>
            Rank(l, i) < |answers| && answers[Rank(l, i)].entry == entry && ServedOnce(answers[Rank(l, i)]))
  }

  lemma FateOf(l: Ledger, promised: seq<Queued>, answers: seq<Served>, i: nat)
    requires Balanced(l) && Accounted(l, promised, answers) && i < |promised|
    ensures Fate(l, promised[i], answers, i)
  {
    if i < |l.departed| && !l.departed[i].expired {
      RankOfUnexpired(l.departed, i);
      assert Unexpired(l.departed)[Rank(l, i)] == answers[Rank(l, i)].entry;
    }
  }

  /**
   Over every run of calls and drains, however the calls overlap, the calls told that there is no
   fallback are exactly the requests the queue accepted, in order; each of these is still waiting at
   its place, has expired, or has been served once; and nothing else was ever served.
   */
  lemma QueuedRequestsAreAccounted(maxRetries: nat, maxSize: nat, maxTime: nat, run: seq<Event>)
    requires QueueRun(maxRetries, Empty(maxSize, maxTime), run)
    ensures var l := QueueAt(Empty(maxSize, maxTime), run);
            && l.accepted == Promised(run)
            && Entries(Answers(run)) == Unexpired(l.departed)
            && forall i :: 0 <= i < |Promised(run)| ==> Fate(l, Promised(run)[i], Answers(run), i)
  {
    var start := Empty(maxSize, maxTime);
    assert Entries([]) == [];
    RunKeepsAccount(maxRetries, start, run);
    RunKeepsBalance(maxRetries, start, run);
    var l := QueueAt(start, run);
    forall i | 0 <= i < |Promised(run)| ensures Fate(l, Promised(run)[i], Answers(run), i) {
      FateOf(l, Promised(run), Answers(run), i);
    }
  }
}
