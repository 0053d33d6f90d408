/** Every action of every thread keeps the invariant, so every run does. */
module AttemptRuns {
  import opened Options
  import opened AttemptMachine
  import opened AttemptInvariant

  // ---------------------------------------------------------------------------------------------
  // One instruction of a running call
  // ---------------------------------------------------------------------------------------------

  /** What an instruction of call `p` leaves behind, without saying which instruction it was. */
  ghost predicate Good(s: Sys, p: Act, e: Effect)
    requires p in s.frames && s.frames[p].attempt in s.attempts
  {
    var f := s.frames[p];
    var a := s.attempts[f.attempt];
    var failed := a.handle in s.failed || e.poisons;
    && AttemptInv(e.a, failed, s.now)
    && (e.f.Some? ==> FrameInv(e.f.value, p, e.a, failed) && e.f.value.op == f.op && e.f.value.attempt == f.attempt)
    && Guarantee(a, e.a, p)
    && Debt(e.a, e.f, p, failed)
    && Flag(e.f, p, e.scope)
    && Released(e.a, e.f, p)
  }

  lemma IsReady(s: Sys, p: Act)
    requires Inv(s) && CanAdvance(s, p)
    ensures var a := s.attempts[s.frames[p].attempt];
            Ready(a, s.frames[p], p, a.handle in s.failed, p.thread in s.scope, s.now)
  {
    assert CallInv(s, p);
    var id := s.frames[p].attempt;
    assert LocksInv(s, id);
    var a := s.attempts[id];
    if a.dispatch == Some(p) {
      assert Account(a, Some(s.frames[p]), a.handle in s.failed);
    } else if a.dispatch == None {
      assert Account(a, None, a.handle in s.failed);
    }
  }

  lemma IsGood(s: Sys, p: Act, panics: bool)
    requires Inv(s) && CanAdvance(s, p)
    ensures var a := s.attempts[s.frames[p].attempt];
            Good(s, p, Micro(a, s.frames[p], p, a.handle in s.failed, p.thread in s.scope, s.now, panics))
  {
    var f := s.frames[p];
    var a := s.attempts[f.attempt];
    IsReady(s, p);
    MicroKeepsAttempt(a, f, p, a.handle in s.failed, p.thread in s.scope, s.now, panics);
    MicroKeepsFrame(a, f, p, a.handle in s.failed, p.thread in s.scope, s.now, panics);
    MicroGuarantee(a, f, p, a.handle in s.failed, p.thread in s.scope, s.now, panics);
    MicroEdges(a, f, p, a.handle in s.failed, p.thread in s.scope, s.now, panics);
    MicroProgress(a, f, p, a.handle in s.failed, p.thread in s.scope, s.now, panics);
  }

  /** A handle that fails harms no attempt. */
  lemma PoisonKeepsAttempt(a: Attempt, failed: bool, poisoned: bool, now: nat)
    requires AttemptInv(a, failed, now) && (failed ==> poisoned)
    ensures AttemptInv(a, poisoned, now)
  {
    SameRecordKeeps(a, a, failed, poisoned, now);
  }

  lemma ReplaceKeepsLocks(s: Sys, p: Act, e: Effect)
    requires p in s.frames && CallInv(s, p) && LocksInv(s, s.frames[p].attempt)
    requires e.f.Some? ==> e.f.value.attempt == s.frames[p].attempt
    requires Guarantee(s.attempts[s.frames[p].attempt], e.a, p) && Released(e.a, e.f, p)
    requires Debt(e.a, e.f, p, e.a.handle in s.failed || e.poisons)
    ensures LocksInv(Replace(s, p, s.frames[p].attempt, e), s.frames[p].attempt)
  {
    var id := s.frames[p].attempt;
    var t := Replace(s, p, id, e);
    assert HeldBy(t, id, e.a.dispatch) && HeldBy(t, id, e.a.last) && HeldBy(t, id, e.a.closer);
    if e.a.dispatch.Some? && e.a.dispatch != Some(p) {
      assert t.frames[e.a.dispatch.value] == s.frames[e.a.dispatch.value];
    }
  }

  lemma ReplaceKeepsOtherLocks(s: Sys, p: Act, e: Effect, id: nat)
    requires p in s.frames && id in s.attempts && LocksInv(s, id) && id != s.frames[p].attempt
    ensures LocksInv(Replace(s, p, s.frames[p].attempt, e), id)
  {
  }

  lemma ReplaceKeepsAttempts(s: Sys, p: Act, e: Effect)
    requires Inv(s) && p in s.frames && s.frames[p].attempt in s.attempts && Good(s, p, e)
    ensures AttemptsInv(Replace(s, p, s.frames[p].attempt, e))
  {
    var t := Replace(s, p, s.frames[p].attempt, e);
    forall id | id in t.attempts
      ensures AttemptInv(t.attempts[id], t.attempts[id].handle in t.failed, t.now) && LocksInv(t, id)
    {
      assert CallInv(s, p);
      if id == s.frames[p].attempt {
        ReplaceKeepsLocks(s, p, e);
      } else {
        ReplaceKeepsOtherLocks(s, p, e, id);
        PoisonKeepsAttempt(s.attempts[id], s.attempts[id].handle in s.failed, s.attempts[id].handle in t.failed, s.now);
      }
    }
  }

  lemma ReplaceKeepsOther(s: Sys, p: Act, e: Effect, q: Act)
    requires CanAdvance(s, p) && CallInv(s, p) && Flag(e.f, p, e.scope)
    requires q != p && q in s.frames && CallInv(s, q)
    requires Guarantee(s.attempts[s.frames[p].attempt], e.a, p)
    ensures CallInv(Replace(s, p, s.frames[p].attempt, e), q)
  {
    var t := Replace(s, p, s.frames[p].attempt, e);
    var g := s.frames[q];
    var a := s.attempts[g.attempt];
    assert t.frames[q] == g;
    OthersUnharmed(g, q, p, a, t.attempts[g.attempt], a.handle in s.failed, a.handle in t.failed);
    if q.thread == p.thread {
      assert p == Act(p.thread, p.nested) && q == Act(p.thread, !p.nested);
    }
  }

  lemma ReplaceKeepsOwn(s: Sys, p: Act, e: Effect)
    requires CanAdvance(s, p) && CallInv(s, p) && Flag(e.f, p, e.scope) && e.f.Some?
    requires FrameInv(e.f.value, p, e.a, e.a.handle in s.failed || e.poisons)
    requires e.f.value.attempt == s.frames[p].attempt
    ensures CallInv(Replace(s, p, s.frames[p].attempt, e), p)
  {
  }

  lemma ReplaceKeepsAlone(s: Sys, p: Act, e: Effect)
    requires p in s.frames && Alone(s)
    requires e.f.Some? ==> e.f.value.op == s.frames[p].op && e.f.value.attempt == s.frames[p].attempt
    ensures Alone(Replace(s, p, s.frames[p].attempt, e))
  {
  }

  lemma ReplaceKeepsCalls(s: Sys, p: Act, e: Effect)
    requires CallsInv(s) && CanAdvance(s, p) && Good(s, p, e)
    ensures CallsInv(Replace(s, p, s.frames[p].attempt, e))
  {
    var t := Replace(s, p, s.frames[p].attempt, e);
    assert CallInv(s, p);
    forall q | q in t.frames ensures CallInv(t, q) {
      if q != p { ReplaceKeepsOther(s, p, e, q); } else { ReplaceKeepsOwn(s, p, e); }
    }
    ReplaceKeepsAlone(s, p, e);
  }

  lemma AdvanceKeepsInv(s: Sys, p: Act, panics: bool)
    requires Inv(s) && CanAdvance(s, p)
    ensures Inv(AdvanceCall(s, p, panics))
  {
    var a := s.attempts[s.frames[p].attempt];
    var e := Micro(a, s.frames[p], p, a.handle in s.failed, p.thread in s.scope, s.now, panics);
    IsGood(s, p, panics);
    ReplaceKeepsAttempts(s, p, e);
    ReplaceKeepsCalls(s, p, e);
  }

  // ---------------------------------------------------------------------------------------------
  // Entering the API, creating, cloning and dropping tokens, passing time
  // ---------------------------------------------------------------------------------------------

  /** The attempt changed only in ways no call in progress can notice. */
  predicate Unnoticed(s: Sys, id: nat, b: Attempt)
    requires id in s.attempts
  {
    var a := s.attempts[id];
    && b == a.(tokenCount := b.tokenCount, tokens := b.tokens, finals := b.finals, closer := b.closer,
               replies := b.replies)
    && (forall p :: p in s.frames && s.frames[p].attempt == id ==>
          && (s.frames[p].op.FinalDrop? <==> b.closer == Some(p))
          && (!s.frames[p].op.FinalDrop? ==> s.frames[p].token in b.tokens))
  }

  lemma UpdateKeepsCalls(s: Sys, id: nat, b: Attempt)
    requires CallsInv(s) && id in s.attempts && Unnoticed(s, id, b)
    ensures CallsInv(s.(attempts := s.attempts[id := b]))
  {
    var t := s.(attempts := s.attempts[id := b]);
    forall p | p in t.frames ensures CallInv(t, p) { assert CallInv(s, p); }
  }

  lemma UpdateKeepsLocks(s: Sys, id: nat, b: Attempt)
    requires Inv(s) && id in s.attempts
    requires b == s.attempts[id].(tokenCount := b.tokenCount, tokens := b.tokens, replies := b.replies)
    requires AttemptInv(b, b.handle in s.failed, s.now)
    ensures AttemptsInv(s.(attempts := s.attempts[id := b]))
  {
    var t := s.(attempts := s.attempts[id := b]);
    forall i | i in t.attempts
      ensures AttemptInv(t.attempts[i], t.attempts[i].handle in t.failed, t.now) && LocksInv(t, i)
    {
      assert LocksInv(s, i);
    }
  }

  /** A call enters the API: it holds nothing yet. */
  lemma EnterKeepsOther(s: Sys, p: Act, f: Frame, q: Act)
    requires CanEnter(s, p) && q in s.frames && CallInv(s, q)
    ensures CallInv(s.(frames := s.frames[p := f]), q)
  {
  }

  lemma EnterKeepsAlone(s: Sys, p: Act, f: Frame)
    requires Alone(s) && p !in s.frames
    requires forall q :: q in s.frames && s.frames[q].attempt == f.attempt ==>
             !f.op.FinalDrop? && !s.frames[q].op.FinalDrop?
    ensures Alone(s.(frames := s.frames[p := f]))
  {
  }

  lemma EnterKeepsCalls(s: Sys, p: Act, f: Frame)
    requires CallsInv(s) && CanEnter(s, p) && f.attempt in s.attempts
    requires Flag(Some(f), p, p.thread in s.scope)
    requires FrameInv(f, p, s.attempts[f.attempt], s.attempts[f.attempt].handle in s.failed)
    requires forall q :: q in s.frames && s.frames[q].attempt == f.attempt ==>
             !f.op.FinalDrop? && !s.frames[q].op.FinalDrop?
    ensures CallsInv(s.(frames := s.frames[p := f]))
  {
    var t := s.(frames := s.frames[p := f]);
    forall q | q in t.frames ensures CallInv(t, q) {
      if q != p { EnterKeepsOther(s, p, f, q); }
    }
    EnterKeepsAlone(s, p, f);
  }

  lemma EnterKeepsLocks(s: Sys, p: Act, f: Frame, id: nat)
    requires p !in s.frames && id in s.attempts && LocksInv(s, id)
    ensures LocksInv(s.(frames := s.frames[p := f]), id)
  {
  }

  lemma EnterKeepsAttempts(s: Sys, p: Act, f: Frame)
    requires AttemptsInv(s) && p !in s.frames
    ensures AttemptsInv(s.(frames := s.frames[p := f]))
  {
    forall id | id in s.attempts ensures LocksInv(s.(frames := s.frames[p := f]), id) { EnterKeepsLocks(s, p, f, id); }
  }

  lemma FlagOfThread(s: Sys, p: Act)
    requires CallsInv(s) && CanEnter(s, p)
    ensures p.thread in s.scope <==> p.nested
  {
    if p.nested { assert CallInv(s, Act(p.thread, false)); }
    else { assert p == Act(p.thread, false); }
  }

  lemma NotAlone(s: Sys, id: nat)
    requires Inv(s) && id in s.attempts && s.attempts[id].tokens != {}
    ensures forall q :: q in s.frames && s.frames[q].attempt == id ==> !s.frames[q].op.FinalDrop?
  {
    forall q | q in s.frames && s.frames[q].attempt == id ensures !s.frames[q].op.FinalDrop? { assert CallInv(s, q); }
  }

  lemma HoldsNothing(s: Sys, p: Act, id: nat)
    requires Inv(s) && p !in s.frames && id in s.attempts
    ensures s.attempts[id].dispatch != Some(p) && s.attempts[id].last != Some(p) && s.attempts[id].closer != Some(p)
  {
    assert LocksInv(s, id);
  }

  /** A call that has just entered holds no lock and knows nothing yet. */
  lemma NewcomerInv(s: Sys, p: Act, f: Frame)
    requires Inv(s) && p !in s.frames && f.attempt in s.attempts
    requires f.token in s.attempts[f.attempt].tokens
    requires f.wrote.None? && f.result == Failed(ReentrantObserver)
    requires if f.op.Orthogonal? then f.pc in {CheckFailed, MarkFailed} else !f.op.FinalDrop? && f.pc == CheckActive
    ensures FrameInv(f, p, s.attempts[f.attempt], s.attempts[f.attempt].handle in s.failed)
  {
    HoldsNothing(s, p, f.attempt);
    NewcomerFrame(s.attempts[f.attempt], p, f, s.attempts[f.attempt].handle in s.failed);
  }

  lemma NewcomerFrame(a: Attempt, p: Act, f: Frame, failed: bool)
    requires a.dispatch != Some(p) && a.last != Some(p) && a.closer != Some(p) && f.token in a.tokens
    requires f.wrote.None? && f.result == Failed(ReentrantObserver)
    requires if f.op.Orthogonal? then f.pc in {CheckFailed, MarkFailed} else !f.op.FinalDrop? && f.pc == CheckActive
    ensures FrameInv(f, p, a, failed)
  {
  }

  lemma NewcomerKeepsInv(s: Sys, p: Act, f: Frame)
    requires Inv(s) && CanEnter(s, p) && f.attempt in s.attempts
    requires f.token in s.attempts[f.attempt].tokens
    requires f.wrote.None? && f.result == Failed(ReentrantObserver)
    requires if f.op.Orthogonal? then f.pc == (if p.nested then MarkFailed else CheckFailed)
             else !f.op.FinalDrop? && f.pc == CheckActive && !p.nested
    ensures Inv(s.(frames := s.frames[p := f]))
  {
    NewcomerKeepsCalls(s, p, f);
    EnterKeepsAttempts(s, p, f);
  }

  lemma NewcomerFlag(s: Sys, p: Act, f: Frame)
    requires CallsInv(s) && CanEnter(s, p)
    requires f.op.Orthogonal? ==> f.result == Failed(ReentrantObserver)
    requires if f.op.Orthogonal? then f.pc == (if p.nested then MarkFailed else CheckFailed)
             else f.pc == CheckActive && !p.nested
    ensures Flag(Some(f), p, p.thread in s.scope)
  {
    FlagOfThread(s, p);
  }

  lemma NewcomerKeepsCalls(s: Sys, p: Act, f: Frame)
    requires Inv(s) && CanEnter(s, p) && f.attempt in s.attempts
    requires f.token in s.attempts[f.attempt].tokens
    requires f.wrote.None? && f.result == Failed(ReentrantObserver)
    requires if f.op.Orthogonal? then f.pc == (if p.nested then MarkFailed else CheckFailed)
             else !f.op.FinalDrop? && f.pc == CheckActive && !p.nested
    ensures CallsInv(s.(frames := s.frames[p := f]))
  {
    NewcomerFlag(s, p, f);
    NotAlone(s, f.attempt);
    NewcomerInv(s, p, f);
    EnterKeepsCalls(s, p, f);
  }

  lemma CallsDoNotNotice(s: Sys, id: nat, b: Attempt)
    requires CallsInv(s) && id in s.attempts
    requires b == s.attempts[id].(tokenCount := b.tokenCount, tokens := b.tokens, replies := b.replies)
    requires forall q :: q in s.frames && s.frames[q].attempt == id && !s.frames[q].op.FinalDrop? ==>
             s.frames[q].token in b.tokens
    ensures CallsInv(s.(attempts := s.attempts[id := b]))
  {
    forall q | q in s.frames && s.frames[q].attempt == id
      ensures s.frames[q].op.FinalDrop? <==> b.closer == Some(q)
    { assert CallInv(s, q); }
    UpdateKeepsCalls(s, id, b);
  }

  lemma BorrowedIsLive(s: Sys, id: nat)
    requires CallsInv(s) && id in s.attempts
    ensures forall q :: q in s.frames && s.frames[q].attempt == id && !s.frames[q].op.FinalDrop? ==>
              s.frames[q].token in s.attempts[id].tokens
  {
    forall q | q in s.frames && s.frames[q].attempt == id && !s.frames[q].op.FinalDrop?
      ensures s.frames[q].token in s.attempts[id].tokens
    { assert CallInv(s, q); }
  }

  lemma BeginKeepsInv(s: Sys, p: Act, id: nat, token: nat, op: Op)
    requires Inv(s) && Enabled(s, Begin(p, id, token, op))
    ensures Inv(Apply(s, Begin(p, id, token, op)))
  {
    var a := s.attempts[id];
    var f := Frame(op, id, token, CheckActive, Offered, None, Failed(ReentrantObserver));
    FlagOfThread(s, p);
    if op.Orthogonal? {
      NewcomerKeepsInv(s, p, f.(pc := if p.nested then MarkFailed else CheckFailed));
    } else if p.nested {
      var b := Finish(a, f, true).a;
      ReplyKeeps(a, f, b, a.handle in s.failed, s.now);
      BorrowedIsLive(s, id);
      CallsDoNotNotice(s, id, b);
      UpdateKeepsLocks(s, id, b);
    } else {
      NewcomerKeepsInv(s, p, f);
    }
  }

  lemma TokensKeepAttempt(a: Attempt, b: Attempt, failed: bool, now: nat)
    requires AttemptInv(a, failed, now)
    requires b == a.(tokenCount := |b.tokens|, tokens := b.tokens, finals := b.finals, closer := b.closer)
    requires b.finals == (if b.tokens == {} then 1 else 0)
    requires b.closer.Some? <==> b.tokens == {}
    ensures AttemptInv(b, failed, now)
  {
    RepliesStay(a, b);
  }

  lemma CloneKeepsInv(s: Sys, id: nat, token: nat, copy: nat)
    requires Inv(s) && Enabled(s, CloneToken(id, token, copy))
    ensures Inv(Apply(s, CloneToken(id, token, copy)))
  {
    var a := s.attempts[id];
    var b := Clone(a, copy);
    TokensKeepAttempt(a, b, a.handle in s.failed, s.now);
    BorrowedIsLive(s, id);
    CallsDoNotNotice(s, id, b);
    UpdateKeepsLocks(s, id, b);
  }

  lemma DropKeepsInv(s: Sys, p: Act, id: nat, token: nat)
    requires Inv(s) && Enabled(s, DropToken(p, id, token)) && s.attempts[id].tokenCount != 1
    ensures Inv(Apply(s, DropToken(p, id, token)))
  {
    var a := s.attempts[id];
    var b := Drop(a, p, token);
    TokensKeepAttempt(a, b, a.handle in s.failed, s.now);
    BorrowedIsLive(s, id);
    CallsDoNotNotice(s, id, b);
    UpdateKeepsLocks(s, id, b);
  }

  /** The drop of the last token finds no call in progress on its attempt. */
  lemma LastTokenIsUnused(s: Sys, p: Act, id: nat, token: nat)
    requires Inv(s) && Enabled(s, DropToken(p, id, token)) && s.attempts[id].tokenCount == 1
    ensures s.attempts[id].tokens == {token}
    ensures forall q :: q in s.frames ==> s.frames[q].attempt != id
    ensures s.attempts[id].dispatch.None? && s.attempts[id].last.None?
  {
    var a := s.attempts[id];
    assert a.tokens == {token} by {
      assert |a.tokens - {token}| == 0;
      assert a.tokens == {token} + (a.tokens - {token});
    }
    forall q | q in s.frames ensures s.frames[q].attempt != id { assert CallInv(s, q); }
    assert LocksInv(s, id);
  }

  lemma FinalDropKeepsAttempts(s: Sys, p: Act, id: nat, token: nat)
    requires Inv(s) && Enabled(s, DropToken(p, id, token)) && s.attempts[id].tokenCount == 1
    ensures AttemptsInv(Apply(s, DropToken(p, id, token)))
  {
    var a := s.attempts[id];
    var t := Apply(s, DropToken(p, id, token));
    LastTokenIsUnused(s, p, id, token);
    TokensKeepAttempt(a, Drop(a, p, token), a.handle in s.failed, s.now);
    forall i | i in t.attempts
      ensures AttemptInv(t.attempts[i], t.attempts[i].handle in t.failed, t.now) && LocksInv(t, i)
    {
      if i == id { assert LocksInv(s, id); } else { EnterKeepsLocks(s, p, t.frames[p], i); }
    }
  }

  lemma FinalDropKeepsCalls(s: Sys, p: Act, id: nat, token: nat)
    requires Inv(s) && Enabled(s, DropToken(p, id, token)) && s.attempts[id].tokenCount == 1
    ensures CallsInv(Apply(s, DropToken(p, id, token)))
  {
    var b := Drop(s.attempts[id], p, token);
    LastTokenIsUnused(s, p, id, token);
    FlagOfThread(s, p);
    UpdateKeepsCalls(s, id, b);
    LastDropEnters(s.(attempts := s.attempts[id := b]), p, id, token);
  }

  lemma LastDropEnters(s: Sys, p: Act, id: nat, token: nat)
    requires CallsInv(s) && CanEnter(s, p) && id in s.attempts && (p.thread in s.scope <==> p.nested)
    requires var a := s.attempts[id]; a.dispatch.None? && a.last.None? && a.closer == Some(p)
    requires forall q :: q in s.frames ==> s.frames[q].attempt != id
    ensures CallsInv(s.(frames := s.frames[p := Frame(FinalDrop, id, token, AcquireDispatch, Offered, None, Done)]))
  {
    EnterKeepsCalls(s, p, Frame(FinalDrop, id, token, AcquireDispatch, Offered, None, Done));
  }

  lemma CreateKeepsInv(s: Sys, id: nat, handle: nat, token: nat)
    requires Inv(s) && id !in s.attempts
    ensures Inv(Apply(s, Create(id, handle, token)))
  {
    CreateKeepsCalls(s, id, handle, token);
    CreateKeepsAttempts(s, id, handle, token);
  }

  lemma CreateKeepsCalls(s: Sys, id: nat, handle: nat, token: nat)
    requires CallsInv(s) && id !in s.attempts
    ensures CallsInv(Apply(s, Create(id, handle, token)))
  {
    var t := Apply(s, Create(id, handle, token));
    forall q | q in t.frames ensures CallInv(t, q) { assert CallInv(s, q); }
  }

  lemma CreateKeepsAttempts(s: Sys, id: nat, handle: nat, token: nat)
    requires AttemptsInv(s) && id !in s.attempts
    ensures AttemptsInv(Apply(s, Create(id, handle, token)))
  {
    var t := Apply(s, Create(id, handle, token));
    forall i | i in t.attempts ensures LocksInv(t, i) { if i != id { assert LocksInv(s, i); } }
  }

  lemma TickKeepsInv(s: Sys, duration: nat)
    requires Inv(s)
    ensures Inv(Apply(s, Tick(duration)))
  {
    var t := Apply(s, Tick(duration));
    forall q | q in t.frames ensures CallInv(t, q) { assert CallInv(s, q); }
    forall i | i in t.attempts
      ensures AttemptInv(t.attempts[i], t.attempts[i].handle in t.failed, t.now) && LocksInv(t, i)
    { assert LocksInv(s, i); }
  }

  lemma StepKeepsInv(s: Sys, action: Action)
    requires Inv(s) && Enabled(s, action)
    ensures Inv(Apply(s, action))
  {
    match action
    case Create(id, handle, token) => CreateKeepsInv(s, id, handle, token);
    case CloneToken(id, token, copy) => CloneKeepsInv(s, id, token, copy);
    case DropToken(p, id, token) =>
      if s.attempts[id].tokenCount == 1 {
        FinalDropKeepsCalls(s, p, id, token);
        FinalDropKeepsAttempts(s, p, id, token);
      } else { DropKeepsInv(s, p, id, token); }
    case Begin(p, id, token, op) => BeginKeepsInv(s, p, id, token, op);
    case Advance(p, panics) => AdvanceKeepsInv(s, p, panics);
    case Tick(duration) => TickKeepsInv(s, duration);
  }

  lemma {:induction false} RunKeepsInv(s: Sys, run: seq<Action>)
    requires Inv(s) && Exec(s, run).Some?
    ensures Inv(Exec(s, run).value)
  {
    if run == [] {
    } else {
      RunKeepsInv(s, run[..|run| - 1]);
      StepKeepsInv(Exec(s, run[..|run| - 1]).value, run[|run| - 1]);
    }
  }
}
