/** What poisons an observer handle, over every run, and what a poisoned handle answers. */
module AttemptPoison {
  import opened Options
  import opened AttemptMachine
  import opened AttemptInvariant
  import opened AttemptRuns
  import opened AttemptTheorems
  import opened AttemptProgress

  // ---------------------------------------------------------------------------------------------
  // One step
  // ---------------------------------------------------------------------------------------------

  /** The action executes the instruction that marks the handle as failed. */
  predicate Marks(s: Sys, action: Action, h: nat) {
    && action.Advance? && action.who in s.frames && s.frames[action.who].pc == MarkFailed
    && s.frames[action.who].attempt in s.attempts && s.attempts[s.frames[action.who].attempt].handle == h
  }

  lemma MicroPoisons(a: Attempt, f: Frame, p: Act, failed: bool, scope: bool, now: nat, panics: bool)
    ensures var e := Micro(a, f, p, failed, scope, now, panics);
            e.a.handle == a.handle && (e.poisons <==> f.pc == MarkFailed)
  {
    if Entering(f) { assert EntryStep(a, f, p, failed, scope).a.handle == a.handle; }
    else if Locking(f) { LockedKeepsHandle(a, f, p, failed, scope, now); }
    else if Notifying(f) { assert NotifyStep(a, f, failed, scope, panics).a.handle == a.handle; }
    else { assert LeaveStep(a, f, scope).a.handle == a.handle; }
  }

  lemma LockedKeepsHandle(a: Attempt, f: Frame, p: Act, failed: bool, scope: bool, now: nat)
    requires Locking(f)
    ensures var e := LockedStep(a, f, p, failed, scope, now); e.a.handle == a.handle && !e.poisons
  {
  }

  lemma StepPoisons(s: Sys, action: Action, h: nat)
    requires Enabled(s, action)
    ensures h in Apply(s, action).failed <==> h in s.failed || Marks(s, action, h)
  {
    if action.Advance? {
      var p := action.who;
      var a := s.attempts[s.frames[p].attempt];
      MicroPoisons(a, s.frames[p], p, a.handle in s.failed, p.thread in s.scope, s.now, action.panics);
    }
  }

  predicate MovesBy(action: Action, p: Act) {
    action.Advance? && action.who == p
  }

  lemma OthersKeepFrame(s: Sys, action: Action, p: Act)
    requires Enabled(s, action) && p in s.frames && !MovesBy(action, p)
    ensures p in Apply(s, action).frames && Apply(s, action).frames[p] == s.frames[p]
  {
    if action.Advance? && action.who in s.frames {
      var q := action.who;
      var a := s.attempts[s.frames[q].attempt];
      ReplaceKeepsFrame(s, q, s.frames[q].attempt,
                        Micro(a, s.frames[q], q, a.handle in s.failed, q.thread in s.scope, s.now, action.panics), p);
    }
  }

  lemma ReplaceKeepsFrame(s: Sys, q: Act, id: nat, e: Effect, p: Act)
    requires p in s.frames && p != q
    ensures var t := Replace(s, q, id, e);
            p in t.frames && t.frames[p] == s.frames[p]
  {
  }

  lemma OwnFrame(s: Sys, p: Act, panics: bool) returns (e: Effect)
    requires CanAdvance(s, p) && p in Apply(s, Advance(p, panics)).frames
    ensures e.f == Some(Apply(s, Advance(p, panics)).frames[p])
    ensures var a := s.attempts[s.frames[p].attempt];
            e == Micro(a, s.frames[p], p, a.handle in s.failed, p.thread in s.scope, s.now, panics)
  {
    var a := s.attempts[s.frames[p].attempt];
    e := Micro(a, s.frames[p], p, a.handle in s.failed, p.thread in s.scope, s.now, panics);
  }

  // ---------------------------------------------------------------------------------------------
  // A panic, or a callback inside a callback, poisons the handle
  // ---------------------------------------------------------------------------------------------

  /**
   Once a call stands at the instruction that marks the handle as failed, then after any further
   steps of the system the handle is poisoned or the call has not moved.
   */
  lemma {:induction false} MarkedWillPoison(s: Sys, p: Act, run: seq<Action>)
    requires Inv(s) && p in s.frames && s.frames[p].pc == MarkFailed && Exec(s, run).Some?
    ensures s.frames[p].attempt in s.attempts
    ensures var t := Exec(s, run).value;
            || s.attempts[s.frames[p].attempt].handle in t.failed
            || (p in t.frames && t.frames[p] == s.frames[p])
  {
    assert CallInv(s, p);
    var id := s.frames[p].attempt;
    var h := s.attempts[id].handle;
    if run == [] {
    } else {
      var front, action := run[..|run| - 1], run[|run| - 1];
      var u := Exec(s, front).value;
      MarkedWillPoison(s, p, front);
      RunIsLater(s, front, id);
      StepPoisons(u, action, h);
      if h !in u.failed && !MovesBy(action, p) { OthersKeepFrame(u, action, p); }
    }
  }

  /** A callback that panics poisons its handle with the next instruction of its call, in every run. */
  lemma PanicPoisons(s: Sys, p: Act, run: seq<Action>)
    requires Inv(s) && CanAdvance(s, p) && s.frames[p].pc == InCallback
    requires Exec(Apply(s, Advance(p, true)), run).Some?
    ensures var f := s.frames[p];
            var t := Exec(Apply(s, Advance(p, true)), run).value;
            || s.attempts[f.attempt].handle in t.failed
            || (p in t.frames && t.frames[p] == f.(result := Failed(ObserverPanicked), pc := MarkFailed))
  {
    var u, id := Apply(s, Advance(p, true)), s.frames[p].attempt;
    PanicMarks(s, p);
    StepKeepsInv(s, Advance(p, true));
    AdvanceIsLater(s, p, true, id);
    MarkedWillPoison(u, p, run);
  }

  lemma PanicMarks(s: Sys, p: Act)
    requires CanAdvance(s, p) && s.frames[p].pc == InCallback
    ensures var u := Apply(s, Advance(p, true));
            p in u.frames && u.frames[p] == s.frames[p].(result := Failed(ObserverPanicked), pc := MarkFailed)
  {
  }

  /** So does an orthogonal call made from inside a callback. */
  lemma NestedOrthogonalPoisons(s: Sys, p: Act, id: nat, token: nat, run: seq<Action>)
    requires Inv(s) && Enabled(s, Begin(p, id, token, Orthogonal)) && p.nested
    requires Exec(Apply(s, Begin(p, id, token, Orthogonal)), run).Some?
    ensures var u := Apply(s, Begin(p, id, token, Orthogonal));
            var t := Exec(u, run).value;
            || s.attempts[id].handle in t.failed
            || (p in t.frames && p in u.frames && t.frames[p] == u.frames[p] && t.frames[p].pc == MarkFailed)
  {
    FlagOfThread(s, p);
    StepKeepsInv(s, Begin(p, id, token, Orthogonal));
    MarkedWillPoison(Apply(s, Begin(p, id, token, Orthogonal)), p, run);
  }

  /** And a final drop made from inside a callback, when it would have to call back. */
  lemma NestedDropPoisons(s: Sys, p: Act, panics: bool, run: seq<Action>)
    requires Inv(s) && CanAdvance(s, p) && p.nested && s.frames[p].pc == EnterScope
    requires Exec(Apply(s, Advance(p, panics)), run).Some?
    ensures var u := Apply(s, Advance(p, panics));
            var t := Exec(u, run).value;
            || s.attempts[s.frames[p].attempt].handle in t.failed
            || (p in t.frames && p in u.frames && t.frames[p] == u.frames[p] && t.frames[p].pc == MarkFailed)
  {
    assert CallInv(s, p);
    StepKeepsInv(s, Advance(p, panics));
    AdvanceIsLater(s, p, panics, s.frames[p].attempt);
    MarkedWillPoison(Apply(s, Advance(p, panics)), p, run);
  }

  // ---------------------------------------------------------------------------------------------
  // Nothing else does
  // ---------------------------------------------------------------------------------------------

  /** Step `m` of the run was a panic of the callback of the call that `p` is still carrying out at its end. */
  ghost predicate PanickedAt(run: seq<Action>, m: int, p: Act) {
    && 0 <= m < |run| && run[m] == Advance(p, true)
    && (forall j :: m <= j <= |run| ==> Busy(run[..j], p))
    && Exec(INIT, run[..m]).value.frames[p].pc == InCallback
  }

  /** After the run, `p` is carrying out a call. */
  ghost predicate Busy(run: seq<Action>, p: Act) {
    Exec(INIT, run).Some? && p in Exec(INIT, run).value.frames
  }

  lemma PanickedLonger(run: seq<Action>, m: int, p: Act)
    requires run != [] && PanickedAt(run[..|run| - 1], m, p) && Busy(run, p)
    ensures PanickedAt(run, m, p)
  {
    var front := run[..|run| - 1];
    forall j | m <= j <= |run| ensures Busy(run[..j], p) {
      if j == |run| { assert run[..j] == run; } else { assert front[..j] == run[..j]; }
    }
    assert front[..m] == run[..m];
  }

  lemma MicroPanics(a: Attempt, f: Frame, p: Act, failed: bool, scope: bool, now: nat, panics: bool)
    ensures var e := Micro(a, f, p, failed, scope, now, panics);
            e.f.Some? && e.f.value.result == Failed(ObserverPanicked) ==>
              f.result == Failed(ObserverPanicked) || (f.pc == InCallback && panics)
  {
  }

  lemma {:induction false} PanickedFrame(run: seq<Action>, p: Act)
    requires Exec(INIT, run).Some? && p in Exec(INIT, run).value.frames
    requires Exec(INIT, run).value.frames[p].result == Failed(ObserverPanicked)
    ensures exists m :: PanickedAt(run, m, p)
  {
    if run == [] {
    } else {
      var front, action := run[..|run| - 1], run[|run| - 1];
      var s := Exec(INIT, front).value;
      if p in s.frames && !MovesBy(action, p) {
        OthersKeepFrame(s, action, p);
        PanickedFrame(front, p);
        var m :| PanickedAt(front, m, p);
        PanickedLonger(run, m, p);
      } else if MovesBy(action, p) {
        var e := OwnFrame(s, p, action.panics);
        var a := s.attempts[s.frames[p].attempt];
        MicroPanics(a, s.frames[p], p, a.handle in s.failed, p.thread in s.scope, s.now, action.panics);
        if s.frames[p].result == Failed(ObserverPanicked) {
          PanickedFrame(front, p);
          var m :| PanickedAt(front, m, p);
          PanickedLonger(run, m, p);
        } else {
          PanickedNow(run, p);
        }
      }
    }
  }

  lemma PanickedNow(run: seq<Action>, p: Act)
    requires run != [] && run[|run| - 1] == Advance(p, true) && Busy(run, p) && Busy(run[..|run| - 1], p)
    requires Exec(INIT, run[..|run| - 1]).value.frames[p].pc == InCallback
    ensures PanickedAt(run, |run| - 1, p)
  {
    forall j | |run| - 1 <= j <= |run| ensures Busy(run[..j], p) {
      if j == |run| { assert run[..j] == run; }
    }
  }

  lemma MicroMarks(a: Attempt, f: Frame, p: Act, failed: bool, scope: bool, now: nat, panics: bool)
    ensures var e := Micro(a, f, p, failed, scope, now, panics);
            e.f.Some? && e.f.value.pc == MarkFailed && e.f.value.result == Failed(ReentrantObserver) ==>
              f.pc == EnterScope && scope
  {
  }

  lemma MarksWhenNested(s: Sys, p: Act, panics: bool)
    requires Inv(s) && CanAdvance(s, p) && p in Apply(s, Advance(p, panics)).frames
    requires var f := Apply(s, Advance(p, panics)).frames[p];
             f.pc == MarkFailed && f.result == Failed(ReentrantObserver)
    ensures p.nested
  {
    var e := OwnFrame(s, p, panics);
    var a := s.attempts[s.frames[p].attempt];
    MicroMarks(a, s.frames[p], p, a.handle in s.failed, p.thread in s.scope, s.now, panics);
    assert CallInv(s, p);
  }

  lemma {:induction false} ReentrantFrame(run: seq<Action>, p: Act)
    requires Exec(INIT, run).Some? && p in Exec(INIT, run).value.frames
    requires Exec(INIT, run).value.frames[p].pc == MarkFailed
    requires Exec(INIT, run).value.frames[p].result == Failed(ReentrantObserver)
    ensures p.nested
  {
    if run == [] {
    } else {
      var front, action := run[..|run| - 1], run[|run| - 1];
      var s := Exec(INIT, front).value;
      RunKeepsInv(INIT, front);
      if p in s.frames && !MovesBy(action, p) {
        OthersKeepFrame(s, action, p);
        ReentrantFrame(front, p);
      } else if MovesBy(action, p) {
        MarksWhenNested(s, p, action.panics);
      } else if action.Begin? {
        FlagOfThread(s, p);
      }
    }
  }

  /**
   Step `n` marked the handle: for a callback that panicked earlier in the same call, or for an
   orthogonal call or a final drop made from inside a callback of its own thread.
   */
  ghost predicate Poisons(run: seq<Action>, n: int, h: nat) {
    && 0 <= n < |run| && Exec(INIT, run[..n]).Some?
    && var s := Exec(INIT, run[..n]).value;
    && Marks(s, run[n], h)
    && var p, f := run[n].who, s.frames[run[n].who];
       || (exists m :: PanickedAt(run[..n], m, p))
       || (&& (f.op.Orthogonal? || f.op.FinalDrop?) && p.nested
           && Act(p.thread, false) in s.frames && s.frames[Act(p.thread, false)].pc == InCallback)
  }

  lemma MarkHasACause(run: seq<Action>, action: Action, h: nat)
    requires Exec(INIT, run).Some? && Marks(Exec(INIT, run).value, action, h)
    ensures Poisons(run + [action], |run|, h)
  {
    var s, p := Exec(INIT, run).value, action.who;
    assert (run + [action])[..|run|] == run;
    RunKeepsInv(INIT, run);
    assert CallInv(s, p);
    if s.frames[p].result == Failed(ObserverPanicked) {
      PanickedFrame(run, p);
    } else {
      ReentrantFrame(run, p);
    }
  }

  lemma PoisonsEarlier(run: seq<Action>, action: Action, n: int, h: nat)
    requires 0 <= n < |run|
    ensures Poisons(run + [action], n, h) <==> Poisons(run, n, h)
  {
    assert (run + [action])[..n] == run[..n];
  }

  /**
   Over every run, a handle is poisoned if and only if a step of the run marked it, for a panic of a
   callback or for a callback inside a callback.
   */
  lemma {:induction false} PoisonedExactly(run: seq<Action>, h: nat)
    requires Exec(INIT, run).Some?
    ensures h in Exec(INIT, run).value.failed <==> exists n :: Poisons(run, n, h)
  {
    if run == [] {
    } else {
      var front, action := run[..|run| - 1], run[|run| - 1];
      var s := Exec(INIT, front).value;
      assert run == front + [action];
      PoisonedExactly(front, h);
      StepPoisons(s, action, h);
      if n :| Poisons(run, n, h) {
        if n < |front| { PoisonsEarlier(front, action, n, h); }
      }
      if h in s.failed {
        var n :| Poisons(front, n, h);
        PoisonsEarlier(front, action, n, h);
      } else if Marks(s, action, h) {
        MarkHasACause(front, action, h);
      }
    }
  }

  // ---------------------------------------------------------------------------------------------
  // A poisoned handle
  // ---------------------------------------------------------------------------------------------

  /** On an attempt at rest with a poisoned handle, every call is refused and changes nothing. */
  lemma PoisonedCall(s: Sys, thread: nat, id: nat, token: nat, op: Op) returns (run: seq<Action>)
    requires Inv(s) && id in s.attempts && AtRest(s, id) && s.attempts[id].handle in s.failed
    requires Act(thread, false) !in s.frames && token in s.attempts[id].tokens && !op.FinalDrop?
    ensures OnlyAdvances(run, Act(thread, false), false)
    ensures var a := s.attempts[id];
            var b := a.(replies := a.replies + [Return(op, Failed(AttemptPoisoned), Offered, None)]);
            Exec(s, [Begin(Act(thread, false), id, token, op)] + run) == Some(s.(attempts := s.attempts[id := b]))
  {
    var p, a := Act(thread, false), s.attempts[id];
    RestIsUnlocked(s, id);
    IdleThread(s, thread);
    var u := Apply(s, Begin(p, id, token, op));
    ExecFirst(s, Begin(p, id, token, op), []);
    run := [Advance(p, false)];
    if op.Orthogonal? {
      RefusedAtOnce(u, p, id);
      ExecFirst(u, Advance(p, false), []);
    } else {
      var v := Apply(u, Advance(p, false));
      assert v == u.(frames := u.frames[p := u.frames[p].(pc := CheckFailed)]) by { ChecksActive(u, p, id); }
      RefusedAtOnce(v, p, id);
      ExecFirst(v, Advance(p, false), []);
      ExecFirst(u, Advance(p, false), [Advance(p, false)]);
      run := [Advance(p, false)] + [Advance(p, false)];
    }
    ExecFirst(s, Begin(p, id, token, op), run);
    assert [Advance(p, false)] + [] == [Advance(p, false)];
    Unwound(s, p, id, u.frames[p]);
  }

  lemma ChecksActive(u: Sys, p: Act, id: nat)
    requires p in u.frames && u.frames[p].attempt == id && id in u.attempts && u.frames[p].pc == CheckActive
    requires !u.attempts[id].callbackActive && p.thread !in u.scope
    ensures CanAdvance(u, p)
    ensures Apply(u, Advance(p, false)) == u.(frames := u.frames[p := u.frames[p].(pc := CheckFailed)])
  {
    assert u.attempts[id := u.attempts[id]] == u.attempts;
    assert u.scope - {p.thread} == u.scope;
  }

  lemma RefusedAtOnce(u: Sys, p: Act, id: nat)
    requires p in u.frames && u.frames[p].attempt == id && id in u.attempts && u.frames[p].pc == CheckFailed
    requires u.attempts[id].handle in u.failed && p.thread !in u.scope
    ensures CanAdvance(u, p)
    ensures var f, a := u.frames[p], u.attempts[id];
            var b := a.(replies := a.replies + [Return(f.op, Failed(AttemptPoisoned), f.seen, f.wrote)]);
            Apply(u, Advance(p, false)) == u.(attempts := u.attempts[id := b], frames := u.frames - {p})
  {
    assert u.scope - {p.thread} == u.scope;
  }

  lemma Unwound(s: Sys, p: Act, id: nat, f: Frame)
    requires p !in s.frames
    ensures s.frames[p := f] - {p} == s.frames
    ensures s.frames[p := f][p := f.(pc := CheckFailed)] - {p} == s.frames
  {
  }
}
