/** What the attempt protocol promises, for every schedule of every number of threads. */
module AttemptTheorems {
  import opened Options
  import opened AttemptMachine
  import opened AttemptInvariant
  import opened AttemptRuns

  ghost predicate Reachable(s: Sys) {
    exists run :: Exec(INIT, run) == Some(s)
  }

  lemma ReachableInv(s: Sys)
    requires Reachable(s)
    ensures Inv(s)
  {
    var run :| Exec(INIT, run) == Some(s);
    RunKeepsInv(INIT, run);
  }

  ghost predicate AtRest(s: Sys, id: nat) {
    forall p :: p in s.frames ==> s.frames[p].attempt != id
  }

  // ---------------------------------------------------------------------------------------------
  // Order and completeness of the reported events
  // ---------------------------------------------------------------------------------------------

  /**
   The observer has been handed, in order, a prefix of the writes of the attempt. The writes chain
   from `Offered` and their elapsed times add up. At rest the prefix is everything unless the
   handle is poisoned.
   */
  lemma EventsArePrefixOfWrites(s: Sys, id: nat)
    requires Reachable(s) && id in s.attempts
    ensures var a := s.attempts[id];
            && a.events <= a.history
            && Chained(a.history)
            && (forall i :: 0 < i < |a.events| ==> a.events[i].previous == a.events[i - 1].next)
            && Elapsed(a.history) == a.lastAt - a.startedAt
            && (AtRest(s, id) ==> a.events == a.history || a.handle in s.failed)
  {
    ReachableInv(s);
    var a := s.attempts[id];
    assert LocksInv(s, id);
    forall i | 0 < i < |a.events| ensures a.events[i].previous == a.events[i - 1].next {
      assert a.history[..i][i - 1] == a.history[i - 1];
    }
  }

  /** A transition that reported success made its write, and that very event was handed over. */
  lemma SuccessWasObserved(s: Sys, id: nat, k: nat)
    requires Reachable(s) && id in s.attempts && k < |s.attempts[id].replies|
    requires s.attempts[id].replies[k].op.Transition? && s.attempts[id].replies[k].result == Done
    ensures var a := s.attempts[id];
            var r := a.replies[k];
            && r.wrote.Some? && r.wrote.value < |a.events|
            && a.events[r.wrote.value].next == r.op.next
            && a.events[r.wrote.value].outcome == r.op.outcome
  {
    ReachableInv(s);
    assert ReturnTrue(s.attempts[id].replies[k], s.attempts[id]);
  }

  /** A transition is called invalid only if it is, and then the violation was reported and nothing written. */
  lemma RejectionWasReported(s: Sys, id: nat, k: nat)
    requires Reachable(s) && id in s.attempts && k < |s.attempts[id].replies|
    requires s.attempts[id].replies[k].result == Failed(InvalidTransition)
    ensures var a := s.attempts[id];
            var r := a.replies[k];
            && r.op.Transition? && r.wrote.None?
            && (r.seen, r.op.next) in a.violations
            && (!Accepts(r.seen, r.op.next, r.op.outcome) || (r.seen == Offered && a.disarmed))
  {
    ReachableInv(s);
    assert ReturnTrue(s.attempts[id].replies[k], s.attempts[id]);
  }

  /**
   Calls report poison or a panic, and orthogonal callbacks and final drops report reentrancy, only
   with the handle poisoned.
   */
  lemma FailuresPoisonTheHandle(s: Sys, id: nat, k: nat)
    requires Reachable(s) && id in s.attempts && k < |s.attempts[id].replies|
    ensures var r := s.attempts[id].replies[k];
            && (r.result in {Failed(AttemptPoisoned), Failed(ObserverPanicked)} ==> s.attempts[id].handle in s.failed)
            && (r.result == Failed(ReentrantObserver) && (r.op.Orthogonal? || r.op.FinalDrop?) ==>
                  s.attempts[id].handle in s.failed)
  {
    ReachableInv(s);
    assert Blames(s.attempts[id].replies[k], s.attempts[id].handle in s.failed);
  }

  // ---------------------------------------------------------------------------------------------
  // The final drop
  // ---------------------------------------------------------------------------------------------

  lemma OnlyTheLastWriteIsTerminal(history: seq<Event>)
    requires Chained(history)
    ensures forall i :: 0 <= i < |history| - 1 ==> !Terminal(history[i].next)
    ensures history != [] ==> history[0].previous == Offered && history[0].next == ChannelQueued
  {
    forall i | 0 <= i < |history| - 1 ensures !Terminal(history[i].next) {
      assert LegalWrite(history[i + 1]) && history[..i + 1][i] == history[i];
    }
  }

  /** Exactly one drop is elected, precisely when no token is left, and it is alone. */
  lemma OneFinalDrop(s: Sys, id: nat)
    requires Reachable(s) && id in s.attempts
    ensures var a := s.attempts[id];
            && a.tokenCount == |a.tokens|
            && (a.finals == 1 <==> a.tokens == {}) && a.finals <= 1
            && (forall p :: p in s.frames && s.frames[p].attempt == id && s.frames[p].op.FinalDrop? ==>
                  && a.tokens == {}
                  && forall q :: q in s.frames && s.frames[q].attempt == id ==> q == p)
  {
    ReachableInv(s);
    forall p | p in s.frames && s.frames[p].attempt == id && s.frames[p].op.FinalDrop?
      ensures s.attempts[id].tokens == {}
    { assert CallInv(s, p); }
  }

  /**
   Once all tokens are gone and the final drop has returned, an accepted attempt has exactly one
   terminal write, its last one, and an attempt that was never accepted has no write at all.
   */
  lemma RetiredAttemptIsSettled(s: Sys, id: nat)
    requires Reachable(s) && id in s.attempts
    requires s.attempts[id].tokens == {} && AtRest(s, id)
    ensures var a := s.attempts[id];
            if a.history == [] then a.state == Offered && a.events == []
            else
              && Terminal(a.history[|a.history| - 1].next)
              && forall i :: 0 <= i < |a.history| - 1 ==> !Terminal(a.history[i].next)
  {
    ReachableInv(s);
    var a := s.attempts[id];
    assert LocksInv(s, id);
    OnlyTheLastWriteIsTerminal(a.history);
    if a.history != [] { assert LegalWrite(a.history[|a.history| - 1]); }
  }

  // ---------------------------------------------------------------------------------------------
  // Callbacks and locks
  // ---------------------------------------------------------------------------------------------

  lemma GuardIsFree(s: Sys, p: Act)
    requires p in s.frames && CallInv(s, p) && LocksInv(s, s.frames[p].attempt) && s.frames[p].pc == EnterGuard
    ensures !s.attempts[s.frames[p].attempt].callbackActive
  {
  }

  /** The callback flag belongs to the holder of the dispatch lock, so its guard never finds it set. */
  lemma GuardAssertionHolds(s: Sys, id: nat)
    requires Reachable(s) && id in s.attempts
    ensures s.attempts[id].callbackActive ==>
              && s.attempts[id].dispatch.Some? && s.attempts[id].dispatch.value in s.frames
              && HoldsGuard(s.frames[s.attempts[id].dispatch.value])
    ensures forall p :: p in s.frames && s.frames[p].attempt == id && s.frames[p].pc == EnterGuard ==>
              !s.attempts[id].callbackActive
  {
    ReachableInv(s);
    assert LocksInv(s, id);
    forall p | p in s.frames && s.frames[p].attempt == id && s.frames[p].pc == EnterGuard
      ensures !s.attempts[id].callbackActive
    { GuardIsFree(s, p); }
  }

  predicate Waits(s: Sys, p: Act, q: Act) {
    && p in s.frames && s.frames[p].attempt in s.attempts
    && var a := s.attempts[s.frames[p].attempt];
       || (s.frames[p].pc == AcquireDispatch && a.dispatch == Some(q))
       || (s.frames[p].pc == AcquireLast && a.last == Some(q))
  }

  /** A call made from inside a callback never blocks and never calls back. */
  lemma NestedCallNeverBlocks(s: Sys, p: Act)
    requires Inv(s) && p in s.frames && p.nested
    ensures CanAdvance(s, p) && !InScope(s.frames[p])
    ensures forall q :: !Waits(s, p, q)
  {
    assert CallInv(s, p);
    var id := s.frames[p].attempt;
    assert LocksInv(s, id);
    if s.frames[p].op.FinalDrop? {
      assert forall q :: q in s.frames && s.frames[q].attempt == id ==> q == p;
    }
  }

  lemma LastHolderRuns(s: Sys, p: Act)
    requires Inv(s) && p in s.frames && HoldsLast(s.frames[p])
    ensures CanAdvance(s, p)
    ensures forall q: Act, r: Act :: q.thread == p.thread ==> !Waits(s, q, r)
  {
    assert CallInv(s, p);
    forall q: Act, r: Act | q.thread == p.thread && q in s.frames ensures !Waits(s, q, r) {
      assert CallInv(s, q);
      if q.nested { NestedCallNeverBlocks(s, q); }
      else { BusyThreadDoesNotWait(s, p, q, r); }
    }
  }

  lemma BusyThreadDoesNotWait(s: Sys, p: Act, q: Act, r: Act)
    requires p in s.frames && CallInv(s, p) && HoldsLast(s.frames[p])
    requires q in s.frames && q.thread == p.thread && !q.nested
    ensures !Waits(s, q, r)
  {
    if !p.nested { assert p == q; }
  }

  /** Whoever waits for the dispatch lock waits for a thread that itself waits at most for `last_transition`. */
  lemma DispatchHolderWaitsForLast(s: Sys, p: Act, q: Act, r: Act, h: Act)
    requires Inv(s) && Waits(s, p, h) && s.frames[p].pc == AcquireDispatch
    requires q.thread == h.thread && Waits(s, q, r)
    ensures s.frames[q].pc == AcquireLast
  {
    assert LocksInv(s, s.frames[p].attempt);
    assert CallInv(s, h) && CallInv(s, q);
    if q.nested { NestedCallNeverBlocks(s, q); }
    else if h.nested { assert q == Act(h.thread, false); }
    else { assert q == h; }
  }

  ghost predicate ThreadWaits(s: Sys, t: nat, u: nat) {
    exists p: Act, q: Act :: p.thread == t && q.thread == u && Waits(s, p, q)
  }

  ghost predicate WaitPath(s: Sys, path: seq<nat>) {
    forall i :: 0 <= i < |path| - 1 ==> ThreadWaits(s, path[i], path[i + 1])
  }

  lemma LastLockEndsThePath(s: Sys, p: Act, q: Act)
    requires Inv(s) && Waits(s, p, q) && s.frames[p].pc == AcquireLast
    ensures forall u :: !ThreadWaits(s, q.thread, u)
  {
    assert LocksInv(s, s.frames[p].attempt);
    assert CallInv(s, q);
    LastHolderRuns(s, q);
  }

  /** Chains of threads waiting for each other's locks have at most two links. */
  lemma WaitPathsAreShort(s: Sys, path: seq<nat>)
    requires Reachable(s) && WaitPath(s, path)
    ensures |path| <= 3
  {
    ReachableInv(s);
    if |path| > 3 {
      assert ThreadWaits(s, path[0], path[1]) && ThreadWaits(s, path[1], path[2]) && ThreadWaits(s, path[2], path[3]);
      var p: Act, h: Act :| p.thread == path[0] && h.thread == path[1] && Waits(s, p, h);
      var q: Act, r: Act :| q.thread == path[1] && r.thread == path[2] && Waits(s, q, r);
      if s.frames[p].pc == AcquireLast {
        LastLockEndsThePath(s, p, h);
      } else {
        DispatchHolderWaitsForLast(s, p, q, r, h);
        LastLockEndsThePath(s, q, r);
      }
      assert false;
    }
  }

  /** So no set of threads ever waits in a circle. */
  lemma NoDeadlockCycle(s: Sys, path: seq<nat>)
    requires Reachable(s) && WaitPath(s, path) && |path| >= 2
    ensures path[0] != path[|path| - 1]
  {
    if path[0] == path[|path| - 1] {
      var twice := path + path[1..];
      var more := twice + path[1..];
      WaitPathsAreShort(s, more);
    }
  }

  // ---------------------------------------------------------------------------------------------
  // Every call finishes
  // ---------------------------------------------------------------------------------------------

  ghost function Work(frames: map<Act, Frame>): nat
    decreases |frames|
  {
    if frames == map[] then 0
    else
      var p :| p in frames;
      Remaining(frames[p].pc) + Work(frames - {p})
  }

  lemma {:induction false} WorkWithout(frames: map<Act, Frame>, p: Act)
    requires p in frames
    ensures Work(frames) == Remaining(frames[p].pc) + Work(frames - {p})
    decreases |frames|
  {
    var q :| q in frames && Work(frames) == Remaining(frames[q].pc) + Work(frames - {q});
    if q != p {
      WorkWithout(frames - {q}, p);
      WorkWithout(frames - {p}, q);
      assert frames - {q} - {p} == frames - {p} - {q};
    }
  }

  lemma AdvanceReducesWork(s: Sys, p: Act, panics: bool)
    requires CanAdvance(s, p)
    ensures Work(AdvanceCall(s, p, panics).frames) < Work(s.frames)
  {
    var t := AdvanceCall(s, p, panics);
    var a := s.attempts[s.frames[p].attempt];
    MicroProgress(a, s.frames[p], p, a.handle in s.failed, p.thread in s.scope, s.now, panics);
    WorkWithout(s.frames, p);
    if p in t.frames {
      WorkWithout(t.frames, p);
      assert t.frames - {p} == s.frames - {p};
    }
  }

  /** As long as a call is in progress, some call can execute its next instruction. */
  lemma SomeoneCanMove(s: Sys)
    requires Inv(s) && s.frames != map[]
    ensures exists p :: CanAdvance(s, p)
  {
    var p :| p in s.frames;
    assert CallInv(s, p);
    assert LocksInv(s, s.frames[p].attempt);
    var a := s.attempts[s.frames[p].attempt];
    if s.frames[p].pc == AcquireDispatch && a.dispatch.Some? {
      RunningHolder(s, a.dispatch.value);
    } else {
      RunningHolder(s, p);
    }
  }

  lemma RunningHolder(s: Sys, p: Act)
    requires Inv(s) && p in s.frames
    requires s.frames[p].pc == AcquireDispatch ==>
             s.frames[p].attempt in s.attempts && s.attempts[s.frames[p].attempt].dispatch.None?
    ensures exists q :: CanAdvance(s, q)
  {
    assert CallInv(s, p);
    assert LocksInv(s, s.frames[p].attempt);
    var a := s.attempts[s.frames[p].attempt];
    if s.frames[p].pc == AcquireLast && a.last.Some? {
      assert CallInv(s, a.last.value);
      LastHolderRuns(s, a.last.value);
    } else if s.frames[p].pc == InCallback && Act(p.thread, true) in s.frames {
      NestedCallNeverBlocks(s, Act(p.thread, true));
    } else {
      assert CanAdvance(s, p);
    }
  }

  /**
   If no new call enters, every schedule of the calls in progress is finite, and when it cannot
   be extended all of them have returned.
   */
  lemma {:induction false} CallsFinish(s: Sys, run: seq<Action>)
    requires Inv(s) && Exec(s, run).Some?
    requires forall i :: 0 <= i < |run| ==> run[i].Advance?
    ensures |run| + Work(Exec(s, run).value.frames) <= Work(s.frames)
    ensures (forall p :: !CanAdvance(Exec(s, run).value, p)) ==> Exec(s, run).value.frames == map[]
  {
    var t := Exec(s, run).value;
    RunKeepsInv(s, run);
    if t.frames != map[] { SomeoneCanMove(t); }
    if run == [] {
    } else {
      var front := run[..|run| - 1];
      CallsFinish(s, front);
      var action := run[|run| - 1];
      AdvanceReducesWork(Exec(s, front).value, action.who, action.panics);
    }
  }

  // ---------------------------------------------------------------------------------------------
  // What time cannot undo: logs grow, poison stays
  // ---------------------------------------------------------------------------------------------

  predicate Grows(a: Attempt, b: Attempt) {
    && a.handle == b.handle
    && a.history <= b.history
    && a.events <= b.events
    && a.replies <= b.replies
    && (a.disarmed ==> b.disarmed)
  }

  /** Only the final drop writes `Abandoned`. */
  function NonDropWrites(a: Attempt): int {
    |a.history| - (if a.state == Abandoned then 1 else 0)
  }

  predicate PastCheck(f: Frame) {
    f.op.Transition? && f.pc in {AcquireLast, LoadState, LoadDisarmed, StoreState}
  }

  /** The holder of the dispatch lock has passed the poison check and not written yet. */
  predicate Pending(s: Sys, id: nat)
    requires id in s.attempts
  {
    var d := s.attempts[id].dispatch;
    d.Some? && d.value in s.frames && PastCheck(s.frames[d.value])
  }

  function Budget(a: Attempt, pending: bool): int {
    NonDropWrites(a) + (if pending then 1 else 0)
  }

  /** Under a poisoned handle, one instruction uses up the permission to write. */
  predicate Spends(a: Attempt, f: Frame, p: Act, e: Effect) {
    && e.a.clean == a.clean
    && NonDropWrites(a) <= NonDropWrites(e.a)
    && (a.dispatch == Some(p) ==>
          Budget(e.a, e.a.dispatch.Some? && e.f.Some? && PastCheck(e.f.value)) <= Budget(a, PastCheck(f)))
    && (a.dispatch != Some(p) ==>
          && NonDropWrites(e.a) == NonDropWrites(a)
          && (e.a.dispatch == a.dispatch || (e.a.dispatch == Some(p) && e.f.Some? && !PastCheck(e.f.value))))
  }

  lemma EntrySpends(a: Attempt, f: Frame, p: Act, scope: bool)
    requires Holding(f, p, a) && Loaded(f, a) && Unblocked(a, f) && Entering(f)
    ensures Spends(a, f, p, EntryStep(a, f, p, true, scope))
  {
  }

  lemma LockedSpends(a: Attempt, f: Frame, p: Act, scope: bool, now: nat)
    requires Holding(f, p, a) && Loaded(f, a) && Unblocked(a, f) && Locking(f)
    ensures Spends(a, f, p, LockedStep(a, f, p, true, scope, now))
  {
  }

  lemma NotifySpends(a: Attempt, f: Frame, p: Act, scope: bool, panics: bool)
    requires Holding(f, p, a) && Loaded(f, a) && Unblocked(a, f) && Notifying(f)
    ensures Spends(a, f, p, NotifyStep(a, f, true, scope, panics))
  {
  }

  lemma LeaveSpends(a: Attempt, f: Frame, p: Act, scope: bool)
    requires PcOfOp(f) && (HoldsDispatch(f) <==> a.dispatch == Some(p)) && Leaving(f)
    ensures Spends(a, f, p, LeaveStep(a, f, scope))
  {
    var b := LeaveStep(a, f, scope).a;
    assert NonDropWrites(b) == NonDropWrites(a) && b.clean == a.clean;
  }

  lemma MicroSpends(a: Attempt, f: Frame, p: Act, scope: bool, now: nat, panics: bool)
    requires Holding(f, p, a) && Loaded(f, a) && Unblocked(a, f)
    ensures Spends(a, f, p, Micro(a, f, p, true, scope, now, panics))
  {
    if Entering(f) { EntrySpends(a, f, p, scope); }
    else if Locking(f) { LockedSpends(a, f, p, scope, now); }
    else if Notifying(f) { NotifySpends(a, f, p, scope, panics); }
    else { LeaveSpends(a, f, p, scope); }
  }

  /** What one step, and so every run, leaves as it is or only extends. */
  ghost predicate Later(s: Sys, t: Sys, id: nat)
    requires id in s.attempts
  {
    && id in t.attempts
    && Grows(s.attempts[id], t.attempts[id])
    && s.failed <= t.failed
    && (s.attempts[id].handle in s.failed ==>
          && t.attempts[id].clean == s.attempts[id].clean
          && NonDropWrites(s.attempts[id]) <= NonDropWrites(t.attempts[id])
          && Budget(t.attempts[id], Pending(t, id)) <= Budget(s.attempts[id], Pending(s, id)))
  }

  lemma ReplaceIsLater(s: Sys, p: Act, e: Effect)
    requires p in s.frames && CallInv(s, p) && LocksInv(s, s.frames[p].attempt)
    requires Guarantee(s.attempts[s.frames[p].attempt], e.a, p)
    requires s.attempts[s.frames[p].attempt].handle in s.failed ==>
             Spends(s.attempts[s.frames[p].attempt], s.frames[p], p, e)
    ensures Later(s, Replace(s, p, s.frames[p].attempt, e), s.frames[p].attempt)
  {
  }

  lemma ReplaceIsLaterElsewhere(s: Sys, p: Act, e: Effect, id: nat)
    requires p in s.frames && id in s.attempts && LocksInv(s, id) && id != s.frames[p].attempt
    ensures Later(s, Replace(s, p, s.frames[p].attempt, e), id)
  {
  }

  lemma AdvanceIsLater(s: Sys, p: Act, panics: bool, id: nat)
    requires Inv(s) && CanAdvance(s, p) && id in s.attempts
    ensures Later(s, AdvanceCall(s, p, panics), id)
  {
    var f := s.frames[p];
    var a := s.attempts[f.attempt];
    var e := Micro(a, f, p, a.handle in s.failed, p.thread in s.scope, s.now, panics);
    assert LocksInv(s, id) && CallInv(s, p);
    if id == f.attempt {
      IsGood(s, p, panics);
      MicroSpends(a, f, p, p.thread in s.scope, s.now, panics);
      ReplaceIsLater(s, p, e);
    } else {
      ReplaceIsLaterElsewhere(s, p, e, id);
    }
  }

  lemma QuietIsLater(s: Sys, t: Sys, id: nat)
    requires id in s.attempts && LocksInv(s, id) && Undisturbed(s, t, id)
    requires forall q :: q in s.frames ==> q in t.frames && t.frames[q] == s.frames[q]
    ensures Later(s, t, id)
  {
  }

  /** Nothing changed for the attempt but its tokens and its answers. */
  predicate Undisturbed(s: Sys, t: Sys, id: nat)
    requires id in s.attempts
  {
    && id in t.attempts && s.failed == t.failed
    && var a, b := s.attempts[id], t.attempts[id];
       && a.replies <= b.replies
       && b == a.(tokenCount := b.tokenCount, tokens := b.tokens, finals := b.finals, closer := b.closer,
                  replies := b.replies)
  }

  lemma DropDisturbsNothing(s: Sys, p: Act, target: nat, token: nat, id: nat)
    requires id in s.attempts
    ensures Undisturbed(s, Apply(s, DropToken(p, target, token)), id)
  {
  }

  lemma BeginDisturbsNothing(s: Sys, p: Act, target: nat, token: nat, op: Op, id: nat)
    requires id in s.attempts
    ensures Undisturbed(s, Apply(s, Begin(p, target, token, op)), id)
  {
  }

  lemma OtherStepIsLater(s: Sys, action: Action, id: nat)
    requires id in s.attempts && LocksInv(s, id) && Enabled(s, action) && !action.Advance?
    ensures Later(s, Apply(s, action), id)
  {
    match action
    case Create(_, _, _) =>
    case CloneToken(_, _, _) =>
    case DropToken(p, target, token) => DropDisturbsNothing(s, p, target, token, id);
    case Begin(p, target, token, op) => BeginDisturbsNothing(s, p, target, token, op, id);
    case Tick(_) =>
    QuietIsLater(s, Apply(s, action), id);
  }

  lemma StepIsLater(s: Sys, action: Action, id: nat)
    requires Inv(s) && Enabled(s, action) && id in s.attempts
    ensures Later(s, Apply(s, action), id)
  {
    if action.Advance? { AdvanceIsLater(s, action.who, action.panics, id); }
    else { OtherStepIsLater(s, action, id); }
  }

  lemma {:induction false} RunIsLater(s: Sys, run: seq<Action>, id: nat)
    requires Inv(s) && Exec(s, run).Some? && id in s.attempts
    ensures Later(s, Exec(s, run).value, id)
  {
    if run == [] {
    } else {
      var front := run[..|run| - 1];
      RunIsLater(s, front, id);
      RunKeepsInv(s, front);
      StepIsLater(Exec(s, front).value, run[|run| - 1], id);
    }
  }

  /**
   After the handle of an attempt is poisoned it stays so. The attempt makes at most one further
   write that is not the final drop's, and only if a call was already past the check under the
   dispatch lock. No call that writes after the poisoning reports success.
   */
  lemma PoisonStopsTheAttempt(s: Sys, run: seq<Action>, id: nat)
    requires Reachable(s) && Exec(s, run).Some? && id in s.attempts
    requires s.attempts[id].handle in s.failed
    ensures var t := Exec(s, run).value;
            && id in t.attempts && t.attempts[id].handle == s.attempts[id].handle
            && s.attempts[id].handle in t.failed
            && NonDropWrites(t.attempts[id]) - NonDropWrites(s.attempts[id]) <= (if Pending(s, id) then 1 else 0)
            && (forall k, i :: 0 <= k < |t.attempts[id].replies| && |s.attempts[id].history| <= i &&
                               t.attempts[id].replies[k].wrote == Some(i) ==>
                  t.attempts[id].replies[k].result != Done)
  {
    ReachableInv(s);
    RunIsLater(s, run, id);
    RunKeepsInv(s, run);
    var b := Exec(s, run).value.attempts[id];
    forall k, i | 0 <= k < |b.replies| && |s.attempts[id].history| <= i && b.replies[k].wrote == Some(i)
      ensures b.replies[k].result != Done
    { assert ReturnTrue(b.replies[k], b); }
  }

  // ---------------------------------------------------------------------------------------------
  // Disarming
  // ---------------------------------------------------------------------------------------------

  /** Once a disarm returned true, the attempt stays `Offered` and no transition ever succeeds. */
  lemma DisarmIsForever(s: Sys, run: seq<Action>, id: nat, k: nat)
    requires Reachable(s) && Exec(s, run).Some? && id in s.attempts
    requires k < |s.attempts[id].replies| && s.attempts[id].replies[k].result == Disarmed(true)
    ensures var t := Exec(s, run).value;
            && id in t.attempts
            && t.attempts[id].state == Offered
            && t.attempts[id].history == []
            && forall i :: 0 <= i < |t.attempts[id].replies| && t.attempts[id].replies[i].op.Transition? ==>
                 t.attempts[id].replies[i].result != Done
  {
    ReachableInv(s);
    RunIsLater(s, run, id);
    RunKeepsInv(s, run);
    var b := Exec(s, run).value.attempts[id];
    assert ReturnTrue(b.replies[k], b);
    forall i | 0 <= i < |b.replies| && b.replies[i].op.Transition? ensures b.replies[i].result != Done {
      assert ReturnTrue(b.replies[i], b);
    }
  }

  /** A disarm that returned false came too late: the attempt had been accepted. */
  lemma DisarmTooLate(s: Sys, id: nat, k: nat)
    requires Reachable(s) && id in s.attempts
    requires k < |s.attempts[id].replies| && s.attempts[id].replies[k].result == Disarmed(false)
    ensures s.attempts[id].history != [] && s.attempts[id].history[0].next == ChannelQueued
    ensures s.attempts[id].state != Offered
    ensures forall i :: 0 <= i < |s.attempts[id].replies| ==> s.attempts[id].replies[i].result != Disarmed(true)
  {
    ReachableInv(s);
    var a := s.attempts[id];
    assert ReturnTrue(a.replies[k], a);
    OnlyTheLastWriteIsTerminal(a.history);
    assert LegalWrite(a.history[|a.history| - 1]);
    forall i | 0 <= i < |a.replies| ensures a.replies[i].result != Disarmed(true) {
      assert ReturnTrue(a.replies[i], a);
    }
  }
}
