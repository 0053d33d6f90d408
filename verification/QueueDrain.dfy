/** The loop that serves queued requests once the storage answers again. */
module QueueDrain {
  import opened Clock
  import opened Options
  import opened RequestQueueing
  import opened StorageClient

  datatype Resend = Resend(command: nat, timeout: nat, priority: Priority, outcome: SendOutcome)

  datatype Answer = Answered(data: nat) | SendBroke(outcome: SendOutcome) | TimedOutInQueue

  datatype Response = Response(channel: nat, id: nat, answer: Answer)

  /** One dequeued request, and all sends and responses made for it. */
  datatype Served = Served(entry: Queued, resends: seq<Resend>, responses: seq<Response>)

  /**
   What happens around one turn of the loop: the queue operations of other tasks, the clock at the
   dequeue and at the timeout check, and the outcome of the send if there is one.
   */
  datatype Turn = Turn(others: seq<Op>, at: nat, checkedAt: nat, outcome: SendOutcome)

  const BATCH: nat := 10

  /** The clock does not go back within the turn. */
  predicate Allows(turn: Turn, now: nat) {
    && now <= turn.at && InOrder(turn.others)
    && forall i :: 0 <= i < |turn.others| ==> now <= turn.others[i].at && End(turn.others[i]) <= turn.at
  }

  /** The clock when the first `n` turns are over. */
  function ClockAfter(now: nat, turns: seq<Turn>, n: nat): nat
    requires n <= |turns|
  {
    if n == 0 then now else turns[n - 1].at
  }

  predicate Chronological(now: nat, turns: seq<Turn>) {
    forall i :: 0 <= i < |turns| ==> Allows(turns[i], ClockAfter(now, turns, i))
  }

  /** Exactly one response, to the right channel with the right id, after at most one send. */
  predicate ServedOnce(s: Served) {
    && |s.responses| == 1
    && s.responses[0].id == s.entry.request.id
    && s.responses[0].channel == s.entry.request.channel
    && |s.resends| <= 1
    && (s.resends == [] <==> s.responses[0].answer == TimedOutInQueue)
    && (s.resends != [] ==>
          && s.resends[0].command == s.entry.request.command
          && s.resends[0].priority == s.entry.request.priority
          && 100 * MILLISECOND < s.resends[0].timeout <= s.entry.request.timeout
          && s.responses[0].answer == match s.resends[0].outcome
                                      case Delivered(data) => Answered(data)
                                      case StorageFailure(_) => SendBroke(s.resends[0].outcome)
                                      case OtherFailure(_) => SendBroke(s.resends[0].outcome))
  }

  function Resends(served: seq<Served>): nat {
    if served == [] then 0 else Resends(served[..|served| - 1]) + |served[|served| - 1].resends|
  }

  /** What the loop's own dequeue finds in the queue: the other tasks have run, the expired are gone. */
  function Waiting(l: Ledger, turn: Turn): seq<Queued> {
    Purge(Run(l, turn.others), turn.at).queue
  }

  function AfterTurn(l: Ledger, turn: Turn): Ledger {
    Step(Run(l, turn.others), Dequeue(turn.at))
  }

  function AfterTurns(l: Ledger, turns: seq<Turn>): Ledger {
    if turns == [] then l else AfterTurn(AfterTurns(l, turns[..|turns| - 1]), turns[|turns| - 1])
  }

  /** The request was served once, in time and with the outcome of this turn. */
  predicate ServedIn(s: Served, turn: Turn) {
    var elapsed := Since(s.entry.queuedAt, turn.checkedAt);
    && ServedOnce(s)
    && (s.resends != [] <==> s.entry.request.timeout > elapsed + 100 * MILLISECOND)
    && (s.resends != [] ==>
          s.resends[0].outcome == turn.outcome && s.resends[0].timeout == s.entry.request.timeout - elapsed)
  }

  /** The turn dequeued the request at the front, and served that one. */
  predicate Turned(before: Ledger, turn: Turn, s: Served) {
    Waiting(before, turn) != [] && s.entry == Waiting(before, turn)[0] && ServedIn(s, turn)
  }

  /** Turn by turn: one dequeue each, and the request it took is the one that was served. */
  predicate Drained(start: Ledger, turns: seq<Turn>, served: seq<Served>) {
    && |served| <= |turns|
    && forall i :: 0 <= i < |served| ==> Turned(AfterTurns(start, turns[..i]), turns[i], served[i])
  }

  lemma {:induction false} OthersKeepBalance(l: Ledger, ops: seq<Op>, now: nat)
    requires Balanced(l) && l.clock <= now && InOrder(ops)
    requires forall i :: 0 <= i < |ops| ==> l.clock <= ops[i].at && End(ops[i]) <= now
    ensures Balanced(Run(l, ops)) && Run(l, ops).clock <= now
    ensures l.accepted <= Run(l, ops).accepted && l.departed <= Run(l, ops).departed
    ensures ops != [] ==> Run(l, ops).clock <= End(ops[|ops| - 1])
  {
    if ops == [] {
    } else {
      var front := ops[..|ops| - 1];
      OthersKeepBalance(l, front, ops[|ops| - 1].at);
      StepKeepsBalance(Run(l, front), ops[|ops| - 1]);
    }
  }

  lemma TurnKeepsBalance(l: Ledger, turn: Turn)
    requires Balanced(l) && Allows(turn, l.clock)
    ensures Balanced(AfterTurn(l, turn)) && AfterTurn(l, turn).clock == turn.at
    ensures l.departed <= AfterTurn(l, turn).departed
    ensures Waiting(l, turn) == [] ==> AfterTurn(l, turn).queue == []
    ensures Waiting(l, turn) != [] ==>
              var n := |AfterTurn(l, turn).departed| - 1;
              && |l.departed| <= n
              && AfterTurn(l, turn).departed[n] == Departure(Waiting(l, turn)[0], turn.at, false)
  {
    OthersKeepBalance(l, turn.others, turn.at);
    StepKeepsBalance(Run(l, turn.others), Dequeue(turn.at));
  }

  lemma {:induction false} TurnsKeepBalance(start: Ledger, turns: seq<Turn>, n: nat)
    requires Balanced(start) && Chronological(start.clock, turns) && n <= |turns|
    ensures Balanced(AfterTurns(start, turns[..n]))
    ensures AfterTurns(start, turns[..n]).clock == ClockAfter(start.clock, turns, n)
    ensures start.departed <= AfterTurns(start, turns[..n]).departed
  {
    if n == 0 {
    } else {
      assert turns[..n][..n - 1] == turns[..n - 1];
      TurnsKeepBalance(start, turns, n - 1);
      assert Allows(turns[n - 1], AfterTurns(start, turns[..n - 1]).clock);
      TurnKeepsBalance(AfterTurns(start, turns[..n - 1]), turns[n - 1]);
    }
  }

  lemma TurnGrows(start: Ledger, turns: seq<Turn>, n: nat)
    requires Balanced(start) && Chronological(start.clock, turns) && n < |turns|
    ensures var before, after := AfterTurns(start, turns[..n]), AfterTurns(start, turns[..n + 1]);
            && after == AfterTurn(before, turns[n])
            && start.departed <= before.departed <= after.departed
            && (Waiting(before, turns[n]) != [] ==>
                  && |before.departed| < |after.departed|
                  && after.departed[|after.departed| - 1] ==
                       Departure(Waiting(before, turns[n])[0], turns[n].at, false))
  {
    TurnsKeepBalance(start, turns, n);
    assert turns[..n + 1][..n] == turns[..n];
    assert Allows(turns[n], AfterTurns(start, turns[..n]).clock);
    TurnKeepsBalance(AfterTurns(start, turns[..n]), turns[n]);
  }

  lemma PrefixesChain(a: seq<Departure>, b: seq<Departure>, c: seq<Departure>)
    requires a <= b && b <= c
    ensures a <= c
  {
  }

  lemma {:induction false} DeparturesGrow(start: Ledger, turns: seq<Turn>, m: nat, n: nat)
    requires Balanced(start) && Chronological(start.clock, turns) && m <= n <= |turns|
    ensures AfterTurns(start, turns[..m]).departed <= AfterTurns(start, turns[..n]).departed
  {
    if m == n {
    } else {
      DeparturesGrow(start, turns, m, n - 1);
      TurnGrows(start, turns, n - 1);
      PrefixesChain(AfterTurns(start, turns[..m]).departed, AfterTurns(start, turns[..n - 1]).departed,
                    AfterTurns(start, turns[..n]).departed);
    }
  }

  /** Where in the ledger the request of turn `i` departed. */
  function Position(start: Ledger, turns: seq<Turn>, i: nat): int
    requires i < |turns|
  {
    |AfterTurns(start, turns[..i + 1]).departed| - 1
  }

  /**
   Each request served is the departure that its own turn made: it left the queue unexpired, after
   everything that had left before, and requests are served in the order in which they were accepted.
   */
  lemma ServedInOrder(start: Ledger, turns: seq<Turn>, served: seq<Served>, i: nat, n: nat)
    requires Balanced(start) && Chronological(start.clock, turns) && Drained(start, turns, served)
    requires i < |served| && i < n <= |turns|
    ensures var l := AfterTurns(start, turns[..n]);
            && |start.departed| <= Position(start, turns, i) < |l.departed| <= |l.accepted|
            && l.departed[Position(start, turns, i)] == Departure(served[i].entry, turns[i].at, false)
            && l.accepted[Position(start, turns, i)] == served[i].entry
    ensures forall j :: i < j < |served| ==> Position(start, turns, i) < Position(start, turns, j)
  {
    TurnDeparts(start, turns, served, i);
    DeparturesGrow(start, turns, i + 1, n);
    TurnsKeepBalance(start, turns, n);
    forall j | i < j < |served| ensures Position(start, turns, i) < Position(start, turns, j) {
      TurnDeparts(start, turns, served, j);
      DeparturesGrow(start, turns, i + 1, j);
    }
  }

  lemma TurnDeparts(start: Ledger, turns: seq<Turn>, served: seq<Served>, i: nat)
    requires Balanced(start) && Chronological(start.clock, turns) && Drained(start, turns, served) && i < |served|
    ensures var before, after := AfterTurns(start, turns[..i]), AfterTurns(start, turns[..i + 1]);
            && |start.departed| <= |before.departed| <= Position(start, turns, i) < |after.departed|
            && after.departed[Position(start, turns, i)] == Departure(served[i].entry, turns[i].at, false)
  {
    TurnGrows(start, turns, i);
  }

  method Serve(entry: Queued, turn: Turn) returns (s: Served)
    ensures s.entry == entry && ServedIn(s, turn)
  {
    var elapsed := Since(entry.queuedAt, turn.checkedAt);
    var remaining := if entry.request.timeout < elapsed then 0 else entry.request.timeout - elapsed;
    if remaining > 100 * MILLISECOND {
      var resend := Resend(entry.request.command, remaining, entry.request.priority, turn.outcome);
      var answer := if turn.outcome.Delivered? then Answered(turn.outcome.data) else SendBroke(turn.outcome);
      s := Served(entry, [resend], [Response(entry.request.channel, entry.request.id, answer)]);
    } else {
      s := Served(entry, [], [Response(entry.request.channel, entry.request.id, TimedOutInQueue)]);
    }
  }

  /** One turn of the loop: the other tasks run, one request is dequeued, and that one is served. */
  method ServeNext(l: Ledger, turn: Turn) returns (after: Ledger, next: Option<Served>)
    ensures after == AfterTurn(l, turn)
    ensures next.None? <==> Waiting(l, turn) == []
    ensures next.Some? ==> Turned(l, turn, next.value) && |next.value.resends| <= 1
  {
    after := Purge(Run(l, turn.others), turn.at);
    if after.queue == [] { return after, None; }
    var s := Serve(after.queue[0], turn);
    after := Take(after, turn.at);
    return after, Some(s);
  }

  lemma TurnUnfolds(start: Ledger, turns: seq<Turn>, n: nat)
    requires n < |turns|
    ensures AfterTurns(start, turns[..n + 1]) == AfterTurn(AfterTurns(start, turns[..n]), turns[n])
  {
    assert turns[..n + 1][..n] == turns[..n];
  }

  lemma DrainsOneMore(start: Ledger, turns: seq<Turn>, served: seq<Served>, s: Served)
    requires Drained(start, turns, served) && |served| < |turns|
    requires Turned(AfterTurns(start, turns[..|served|]), turns[|served|], s)
    ensures Drained(start, turns, served + [s])
    ensures Resends(served + [s]) == Resends(served) + |s.resends|
  {
    assert (served + [s])[..|served|] == served;
  }

  /** Why and where the loop stopped. */
  predicate Stopped(start: Ledger, turns: seq<Turn>, l: Ledger, served: seq<Served>) {
    var n := |served|;
    && n <= |turns|
    && (|| (l == AfterTurns(start, turns[..n]) && (n == |turns| || Resends(served) == BATCH))
        || (&& n < |turns| && l == AfterTurns(start, turns[..n + 1])
            && Waiting(AfterTurns(start, turns[..n]), turns[n]) == []))
  }

  /** How many requests other tasks try to add. */
  function Enqueues(ops: seq<Op>): nat {
    if ops == [] then 0 else Enqueues(ops[..|ops| - 1]) + if ops[|ops| - 1].Enqueue? then 1 else 0
  }

  function Arrivals(turns: seq<Turn>): nat {
    if turns == [] then 0 else Arrivals(turns[..|turns| - 1]) + Enqueues(turns[|turns| - 1].others)
  }

  lemma {:induction false} OthersAccept(l: Ledger, ops: seq<Op>)
    ensures |Run(l, ops).accepted| <= |l.accepted| + Enqueues(ops)
  {
    if ops == [] {
    } else {
      OthersAccept(l, ops[..|ops| - 1]);
    }
  }

  lemma {:induction false} TurnsAccept(start: Ledger, turns: seq<Turn>)
    ensures |AfterTurns(start, turns).accepted| <= |start.accepted| + Arrivals(turns)
  {
    if turns == [] {
    } else {
      var front, last := turns[..|turns| - 1], turns[|turns| - 1];
      TurnsAccept(start, front);
      OthersAccept(AfterTurns(start, front), last.others);
    }
  }

  lemma {:induction false} ServedDepart(start: Ledger, turns: seq<Turn>, served: seq<Served>, n: nat)
    requires Balanced(start) && Chronological(start.clock, turns) && Drained(start, turns, served) && n <= |served|
    ensures |start.departed| + n <= |AfterTurns(start, turns[..n]).departed|
  {
    if n == 0 {
    } else {
      ServedDepart(start, turns, served, n - 1);
      TurnGrows(start, turns, n - 1);
    }
  }

  /** The loop serves no more requests than were waiting when it began and arrived during its turns. */
  lemma DrainIsBounded(start: Ledger, turns: seq<Turn>, served: seq<Served>)
    requires Balanced(start) && Chronological(start.clock, turns) && Drained(start, turns, served)
    ensures |served| <= |start.queue| + Arrivals(turns[..|served|])
  {
    ServedDepart(start, turns, served, |served|);
    TurnsAccept(start, turns[..|served|]);
    TurnsKeepBalance(start, turns, |served|);
  }

  /**
   So the loop ends, and for one of its two reasons: given more turns than requests that wait or
   arrive, it has made ten sends, or its last dequeue found the queue empty.
   */
  lemma DrainEnds(start: Ledger, turns: seq<Turn>, l: Ledger, served: seq<Served>)
    requires Balanced(start) && Chronological(start.clock, turns)
    requires Drained(start, turns, served) && Stopped(start, turns, l, served)
    requires |turns| > |start.queue| + Arrivals(turns)
    ensures |served| < |turns|
    ensures Resends(served) == 10 || Waiting(AfterTurns(start, turns[..|served|]), turns[|served|]) == []
  {
    DrainIsBounded(start, turns, served);
    assert turns[..|turns|] == turns;
  }

  /**
   However other tasks use the queue meanwhile: the loop dequeues once per turn and nothing else, every
   request it dequeues is served exactly once, with its own id on its own channel and at most one
   send, and at most ten sends are made. `turns` says what happens around each turn. If it is too
   short, the result is what the loop has done by then; `DrainEnds` says when it is long enough.
   */
  method ProcessQueuedRequests(start: Ledger, turns: seq<Turn>) returns (l: Ledger, served: seq<Served>)
    ensures Drained(start, turns, served) && Resends(served) <= 10
    ensures Stopped(start, turns, l, served)
  {
    l, served := start, [];
    var processed, n := 0, 0;
    while processed < BATCH && n < |turns|
      invariant n == |served| <= |turns| && l == AfterTurns(start, turns[..n])
      invariant processed == Resends(served) <= BATCH
      invariant Drained(start, turns, served)
    {
      TurnUnfolds(start, turns, n);
      var after, next := ServeNext(l, turns[n]);
      l := after;
      if next.None? { return; }
      DrainsOneMore(start, turns, served, next.value);
      served := served + [next.value];
      if next.value.resends != [] { processed := processed + 1; }
      n := n + 1;
    }
  }
}
