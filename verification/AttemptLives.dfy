/** The lives an attempt can have: exactly the paths through the queues and the gate, ended in one of three ways. */
module AttemptLives {
  import opened Options
  import opened AttemptMachine
  import opened AttemptInvariant
  import opened AttemptRuns
  import opened AttemptTheorems
  import opened AttemptProgress

  /** The states of an attempt that is executed, with or without a stay in a batch. */
  function Route(batched: bool): seq<AttemptState> {
    if batched then [ChannelQueued, BatchQueued, WaitingGate, Running, ExecutionFinished]
    else [ChannelQueued, WaitingGate, Running, ExecutionFinished]
  }

  /** A life may stop anywhere on its route, and after acceptance be ended by a shutdown or be abandoned. */
  predicate Life(batched: bool, n: nat, ending: Option<AttemptState>, states: seq<AttemptState>) {
    && n <= |Route(batched)|
    && match ending
       case None => states == Route(batched)[..n]
       case Some(end) =>
         && n > 0 && states == Route(batched)[..n] + [end]
         && (|| (end == ShutdownRejectedAfterAccept && Running !in Route(batched)[..n])
             || (end == Abandoned && ExecutionFinished !in Route(batched)[..n]))
  }

  function States(history: seq<Event>): seq<AttemptState> {
    seq(|history|, i requires 0 <= i < |history| => history[i].next)
  }

  // ---------------------------------------------------------------------------------------------
  // Every attempt has such a life
  // ---------------------------------------------------------------------------------------------

  /** A legal write continues a life. */
  lemma LifeContinues(batched: bool, n: nat, ending: Option<AttemptState>, states: seq<AttemptState>, e: Event)
    returns (b: bool, m: nat, end: Option<AttemptState>)
    requires Life(batched, n, ending, states) && LegalWrite(e)
    requires e.previous == if states == [] then Offered else states[|states| - 1]
    ensures Life(b, m, end, states + [e.next])
    ensures e.outcome.Some? <==> e.next == ExecutionFinished
  {
    b := if n == 1 && e.next in {BatchQueued, WaitingGate} then e.next == BatchQueued else batched;
    assert n == 1 ==> Route(b)[..1] == Route(batched)[..1];
    if e.next in {Abandoned, ShutdownRejectedAfterAccept} {
      m, end := n, Some(e.next);
    } else {
      m, end := n + 1, None;
    }
  }

  lemma {:induction false} ChainedIsALife(history: seq<Event>)
    returns (batched: bool, n: nat, ending: Option<AttemptState>)
    requires Chained(history)
    ensures Life(batched, n, ending, States(history))
    ensures forall i :: 0 <= i < |history| ==> (history[i].outcome.Some? <==> history[i].next == ExecutionFinished)
  {
    if history == [] {
      batched, n, ending := false, 0, None;
    } else {
      var k := |history| - 1;
      ChainedFront(history);
      batched, n, ending := ChainedIsALife(history[..k]);
      batched, n, ending := LifeContinues(batched, n, ending, States(history[..k]), history[k]);
    }
  }

  lemma ChainedFront(history: seq<Event>)
    requires Chained(history) && history != []
    ensures var k := |history| - 1;
            && Chained(history[..k]) && LegalWrite(history[k]) && history[k].previous == StateAfter(history[..k])
            && States(history) == States(history[..k]) + [history[k].next]
  {
    var k := |history| - 1;
    var front := history[..k];
    assert forall i :: 0 <= i < k ==> front[i] == history[i] && front[..i] == history[..i];
  }

  /**
   In every reachable state the writes of an attempt follow one route, each step in its place, and
   end in at most one shutdown, before it runs, or abandonment; an outcome comes with the end of
   execution and with nothing else.
   */
  lemma WritesAreALife(s: Sys, id: nat) returns (batched: bool, n: nat, ending: Option<AttemptState>)
    requires Reachable(s) && id in s.attempts
    ensures var history := s.attempts[id].history;
            && Life(batched, n, ending, States(history))
            && forall i :: 0 <= i < |history| ==> (history[i].outcome.Some? <==> history[i].next == ExecutionFinished)
  {
    ReachableInv(s);
    batched, n, ending := ChainedIsALife(s.attempts[id].history);
  }

  // ---------------------------------------------------------------------------------------------
  // And every such life is possible
  // ---------------------------------------------------------------------------------------------

  lemma {:induction false} ExecMore(s: Sys, run: seq<Action>, more: seq<Action>)
    requires Exec(s, run).Some?
    ensures Exec(s, run + more) == Exec(Exec(s, run).value, more)
  {
    if more == [] {
      assert run + more == run;
    } else {
      var all := run + more;
      assert all[..|all| - 1] == run + more[..|more| - 1];
      ExecMore(s, run, more[..|more| - 1]);
    }
  }

  /** Nobody is busy, nothing is poisoned, and attempt 0 has lived through these states, every call a success. */
  predicate Lived(s: Sys, states: seq<AttemptState>) {
    && s.frames == map[] && s.failed == {} && 0 in s.attempts
    && States(s.attempts[0].history) == states && s.attempts[0].events == s.attempts[0].history
    && |s.attempts[0].replies| == |states|
    && forall i :: 0 <= i < |states| ==> s.attempts[0].replies[i].result == Done
  }

  predicate Alive(s: Sys, states: seq<AttemptState>) {
    Lived(s, states) && s.attempts[0].tokens == {0} && !s.attempts[0].disarmed
  }

  lemma Born(handle: nat) returns (run: seq<Action>)
    ensures run != [] && run[0] == Create(0, handle, 0)
    ensures Exec(INIT, run).Some? && Alive(Exec(INIT, run).value, [])
  {
    ExecFirst(INIT, Create(0, handle, 0), []);
    run := [Create(0, handle, 0)] + [];
  }

  /** The outcome a transition has to carry. */
  function OutcomeFor(next: AttemptState, outcome: Outcome): Option<Outcome> {
    if next == ExecutionFinished then Some(outcome) else None
  }

  lemma LivesOn(before: seq<Action>, states: seq<AttemptState>, next: AttemptState, outcome: Outcome)
    returns (run: seq<Action>)
    requires Exec(INIT, before).Some? && Alive(Exec(INIT, before).value, states)
    requires Accepts(if states == [] then Offered else states[|states| - 1], next, OutcomeFor(next, outcome))
    ensures before <= run && Exec(INIT, run).Some? && Alive(Exec(INIT, run).value, states + [next])
  {
    var s := Exec(INIT, before).value;
    RunKeepsInv(INIT, before);
    StateIsLast(s, states);
    var op := Transition(next, OutcomeFor(next, outcome));
    var more, b := UndisturbedTransition(s, 0, 0, 0, op, false);
    run := before + ([Begin(Act(0, false), 0, 0, op)] + more);
    ExecMore(INIT, before, [Begin(Act(0, false), 0, 0, op)] + more);
    OneMoreState(s.attempts[0], b, states, op, s.now);
  }

  lemma StateIsLast(s: Sys, states: seq<AttemptState>)
    requires Inv(s) && Alive(s, states)
    ensures s.attempts[0].state == if states == [] then Offered else states[|states| - 1]
  {
  }

  lemma OneMoreState(a: Attempt, b: Attempt, states: seq<AttemptState>, op: Op, now: nat)
    requires op.Transition? && a.lastAt <= now && Legal(a, op) && LeftBehind(a, op, now, false, b)
    requires States(a.history) == states && |a.replies| == |states|
    requires forall i :: 0 <= i < |states| ==> a.replies[i].result == Done
    ensures States(b.history) == states + [op.next] && |b.replies| == |states| + 1
    ensures forall i :: 0 <= i <= |states| ==> b.replies[i].result == Done
  {
  }

  lemma {:induction false} Travels(handle: nat, batched: bool, n: nat, outcome: Outcome) returns (run: seq<Action>)
    requires n <= |Route(batched)|
    ensures run != [] && run[0] == Create(0, handle, 0)
    ensures Exec(INIT, run).Some? && Alive(Exec(INIT, run).value, Route(batched)[..n])
  {
    if n == 0 {
      run := Born(handle);
    } else {
      var route := Route(batched);
      run := Travels(handle, batched, n - 1, outcome);
      run := LivesOn(run, route[..n - 1], route[n - 1], outcome);
      assert route[..n - 1] + [route[n - 1]] == route[..n];
    }
  }

  lemma Abandons(before: seq<Action>, states: seq<AttemptState>) returns (run: seq<Action>)
    requires Exec(INIT, before).Some? && Alive(Exec(INIT, before).value, states)
    requires states != [] && !Terminal(states[|states| - 1])
    requires states[|states| - 1] != Offered
    ensures before <= run && Exec(INIT, run).Some? && Lived(Exec(INIT, run).value, states + [Abandoned])
  {
    var s := Exec(INIT, before).value;
    RunKeepsInv(INIT, before);
    StateIsLast(s, states);
    var more, b := UndisturbedFinalDrop(s, 0, 0, 0, false);
    run := before + ([DropToken(Act(0, false), 0, 0)] + more);
    ExecMore(INIT, before, [DropToken(Act(0, false), 0, 0)] + more);
    OneLastState(s.attempts[0], b, states, s.now);
  }

  lemma OneLastState(a: Attempt, b: Attempt, states: seq<AttemptState>, now: nat)
    requires a.lastAt <= now && !Settled(a.state) && Retired(a, now, false, b)
    requires States(a.history) == states && |a.replies| == |states|
    requires forall i :: 0 <= i < |states| ==> a.replies[i].result == Done
    ensures States(b.history) == states + [Abandoned] && |b.replies| == |states| + 1
    ensures forall i :: 0 <= i <= |states| ==> b.replies[i].result == Done
  {
  }

  lemma BeforeRunning(batched: bool, n: nat)
    requires n <= |Route(batched)|
    ensures n <= (if batched then 3 else 2) || Running in Route(batched)[..n]
  {
    var r := if batched then 3 else 2;
    if r < n { assert Route(batched)[..n][r] == Running; }
  }

  /** For every life there is a run from creation in which every call succeeds and the attempt lives it. */
  lemma EveryLifeIsPossible(handle: nat, batched: bool, n: nat, ending: Option<AttemptState>,
                            states: seq<AttemptState>, outcome: Outcome)
    returns (run: seq<Action>)
    requires Life(batched, n, ending, states)
    ensures run != [] && run[0] == Create(0, handle, 0)
    ensures Exec(INIT, run).Some? && Lived(Exec(INIT, run).value, states)
  {
    var route := Route(batched);
    run := Travels(handle, batched, n, outcome);
    if ending == Some(Abandoned) {
      assert route[n - 1] in route[..n];
      run := Abandons(run, route[..n]);
    } else if ending.Some? {
      BeforeRunning(batched, n);
      run := LivesOn(run, route[..n], ShutdownRejectedAfterAccept, outcome);
    }
  }
}
