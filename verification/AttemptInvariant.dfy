/** What every step of the attempt protocol keeps. */
module AttemptInvariant {
  import opened Options
  import opened AttemptMachine

  // ---------------------------------------------------------------------------------------------
  // What a call holds at each instruction
  // ---------------------------------------------------------------------------------------------

  predicate HoldsDispatch(f: Frame) {
    (f.op.Transition? || f.op.FinalDrop?) && f.pc !in {CheckActive, CheckFailed, AcquireDispatch}
  }

  predicate HoldsLast(f: Frame) {
    f.pc in {RecheckFailed, LoadState, LoadDisarmed, StoreState, StoreDisarmed, ReleaseLast}
  }

  predicate Panicked(f: Frame) {
    f.pc == MarkFailed && f.result == Failed(ObserverPanicked)
  }

  predicate InScope(f: Frame) {
    f.pc in {EnterGuard, Invoke, InCallback, LeaveGuard, LeaveScope} || Panicked(f)
  }

  predicate HoldsGuard(f: Frame) {
    !f.op.Orthogonal? && (f.pc in {Invoke, InCallback, LeaveGuard} || Panicked(f))
  }

  /** The call wrote a state whose event it has not handed over yet. */
  predicate Owes(f: Frame) {
    && f.wrote.Some?
    && (f.pc in {ReleaseLast, NotifyCheck, EnterScope, EnterGuard, Invoke} || (f.pc == MarkFailed && !Panicked(f)))
  }

  predicate PcOfOp(f: Frame) {
    && (f.pc == MarkFailed ==> f.result in {Failed(ObserverPanicked), Failed(ReentrantObserver)})
    && match f.op
    case Transition(_, _) => f.pc !in {RecheckFailed, StoreDisarmed} && (f.pc == MarkFailed ==> Panicked(f))
    case Disarm => f.pc in {CheckActive, CheckFailed, AcquireLast, RecheckFailed, LoadState, StoreDisarmed, ReleaseLast}
    case Orthogonal => f.pc in {CheckFailed, EnterScope, Invoke, InCallback, MarkFailed, LeaveScope}
    case FinalDrop => f.pc !in {CheckActive, CheckFailed, CheckFailedLocked, RecheckFailed, LoadDisarmed, StoreDisarmed}
  }

  // ---------------------------------------------------------------------------------------------
  // The history of one attempt
  // ---------------------------------------------------------------------------------------------

  predicate LegalWrite(e: Event) {
    if e.next == Abandoned then e.previous != Offered && !Terminal(e.previous) && e.outcome.None?
    else Accepts(e.previous, e.next, e.outcome)
  }

  function StateAfter(history: seq<Event>): AttemptState {
    if history == [] then Offered else history[|history| - 1].next
  }

  /** Each write starts in the state the write before it left. */
  predicate Chained(history: seq<Event>) {
    forall i :: 0 <= i < |history| ==>
      LegalWrite(history[i]) && history[i].previous == StateAfter(history[..i])
  }

  function Elapsed(history: seq<Event>): nat {
    if history == [] then 0 else Elapsed(history[..|history| - 1]) + history[|history| - 1].elapsed
  }

  /** A transition the protocol has to refuse. */
  predicate Refused(op: Op, seen: AttemptState, a: Attempt) {
    op.Transition? ==> !Accepts(seen, op.next, op.outcome) || (seen == Offered && a.disarmed)
  }

  /** Poison and panics are reported only, and orthogonal and drop reentrancy always, with a poisoned handle. */
  predicate Blames(r: Return, failed: bool) {
    && (r.result in {Failed(AttemptPoisoned), Failed(ObserverPanicked)} ==> failed)
    && (r.result == Failed(ReentrantObserver) && (r.op.Orthogonal? || r.op.FinalDrop?) ==> failed)
  }

  /** What a returned call says about the attempt, from then on. */
  predicate ReturnTrue(r: Return, a: Attempt) {
    && (r.wrote.Some? ==>
          && r.wrote.value < |a.history|
          && (r.op.Transition? ==>
                a.history[r.wrote.value].next == r.op.next && a.history[r.wrote.value].outcome == r.op.outcome)
          && (r.result == Done ==> r.wrote.value < |a.events|))
    && (r.op.Transition? && r.result == Done ==> r.wrote.Some?)
    && (r.result == Failed(InvalidTransition) ==>
          r.op.Transition? && r.wrote.None? && Refused(r.op, r.seen, a) && (r.seen, r.op.next) in a.violations)
    && (r.result == Disarmed(true) ==> a.disarmed)
    && (r.result == Disarmed(false) ==> a.history != [])
    && (r.op.Transition? || r.op.Orthogonal? ==> !r.result.Disarmed?)
  }

  predicate Settled(s: AttemptState) {
    s == Offered || Terminal(s)
  }

  /** The part of the invariant that one attempt keeps without looking at any call. */
  ghost predicate AttemptInv(a: Attempt, failed: bool, now: nat) {
    && a.tokenCount == |a.tokens|
    && a.finals == (if a.tokens == {} then 1 else 0)
    && (a.closer.Some? ==> a.tokens == {})
    && (a.tokens == {} && a.closer.None? ==> Settled(a.state))
    && Chained(a.history)
    && a.state == StateAfter(a.history)
    && a.startedAt <= a.lastAt <= now
    && Elapsed(a.history) == a.lastAt - a.startedAt
    && (a.disarmed ==> a.history == [])
    && a.events <= a.history
    && |a.events| <= a.clean <= |a.history|
    && (!failed ==> a.clean == |a.history|)
    && (forall i :: 0 <= i < |a.replies| ==> ReturnTrue(a.replies[i], a) && Blames(a.replies[i], failed))
  }

  /** A call holds exactly the locks its instruction says, and borrows a live token. */
  predicate Holding(f: Frame, p: Act, a: Attempt) {
    && PcOfOp(f)
    && (f.op.FinalDrop? <==> a.closer == Some(p))
    && (!f.op.FinalDrop? ==> f.token in a.tokens)
    && (HoldsDispatch(f) <==> a.dispatch == Some(p))
    && (HoldsLast(f) <==> a.last == Some(p))
    && (HoldsGuard(f) ==> a.callbackActive)
  }

  /** The state a call loaded is still the current one when it decides and when it stores. */
  predicate Loaded(f: Frame, a: Attempt) {
    && (f.pc in {LoadDisarmed, StoreState, StoreDisarmed} ==> f.seen == a.state)
    && (f.pc in {LoadDisarmed, StoreDisarmed} ==> f.seen == Offered)
    && (f.pc == StoreState ==> if f.op.Transition? then Accepts(f.seen, f.op.next, f.op.outcome) else !Settled(f.seen))
    && (f.pc == StoreState && f.seen == Offered ==> !a.disarmed)
    && (f.op.FinalDrop? && f.pc !in {AcquireDispatch, AcquireLast, LoadState, StoreState} ==> Settled(a.state))
  }

  predicate BeforeStore(f: Frame) {
    Entering(f) || f.pc in {AcquireLast, RecheckFailed, LoadState, LoadDisarmed, StoreState, StoreDisarmed}
  }

  /** A call that wrote made the last write, and hands over exactly that one. */
  predicate Delivery(f: Frame, a: Attempt, failed: bool) {
    f.wrote.Some? ==>
      && (f.op.Transition? || f.op.FinalDrop?)
      && !BeforeStore(f)
      && f.wrote.value == |a.history| - 1
      && (f.op.Transition? ==>
            a.history[f.wrote.value].next == f.op.next && a.history[f.wrote.value].outcome == f.op.outcome)
      && (Owes(f) ==> failed || |a.events| == f.wrote.value)
      && (f.pc in {EnterScope, EnterGuard, Invoke} ==> |a.events| == f.wrote.value < a.clean)
      && (f.pc in {InCallback, LeaveGuard, LeaveScope} || Panicked(f) ==> f.wrote.value < |a.events|)
      && (f.pc == ReleaseDispatch && f.result == Done ==> f.wrote.value < |a.events|)
  }

  /** The result a call is about to return is true of its attempt. */
  predicate Answer(f: Frame, a: Attempt) {
    match f.op
    case Transition(_, _) =>
      && (f.pc == ReleaseLast || Notifying(f) || f.result == Failed(InvalidTransition) ==>
            f.wrote.Some? || Refused(f.op, f.seen, a))
      && (f.pc == InCallback || f.result == Failed(InvalidTransition) ==>
            f.wrote.Some? || (f.seen, f.op.next) in a.violations)
      && (f.result == Done && f.pc in {LeaveGuard, LeaveScope, ReleaseDispatch} ==> f.wrote.Some?)
      && (f.result == Failed(InvalidTransition) ==> f.pc in {LeaveGuard, LeaveScope, ReleaseDispatch} && f.wrote.None?)
      && !f.result.Disarmed?
    case Disarm =>
      f.pc == ReleaseLast ==>
        && f.result in {Failed(AttemptPoisoned), Disarmed(true), Disarmed(false)}
        && (f.result == Disarmed(true) ==> a.disarmed)
        && (f.result == Disarmed(false) ==> a.history != [])
    case _ => !f.result.Disarmed? && f.result != Failed(InvalidTransition)
  }

  /** A call about to report poison, a panic or a reentrant drop has a poisoned handle. */
  predicate Blame(f: Frame, failed: bool) {
    && (f.result == Failed(AttemptPoisoned) ==> failed)
    && (f.result == Failed(ObserverPanicked) && f.pc != MarkFailed ==> failed)
    && (f.result == Failed(ReentrantObserver) && f.op.FinalDrop? ==> f.pc == MarkFailed || failed)
    && (f.result == Failed(ReentrantObserver) && f.op.Orthogonal? ==> f.pc != LeaveScope)
    && (f.result == Failed(ReentrantObserver) && f.op.Transition? ==> !Leaving(f))
  }

  /** What a call in progress knows about its attempt. */
  predicate FrameInv(f: Frame, p: Act, a: Attempt, failed: bool) {
    Holding(f, p, a) && Loaded(f, a) && Delivery(f, a, failed) && Answer(f, a) && Blame(f, failed)
  }

  /** Without a holder of the dispatch lock that still owes an event, all writes were handed over. */
  predicate Account(a: Attempt, holder: Option<Frame>, failed: bool) {
    && ((holder.Some? && Owes(holder.value)) || a.events == a.history || failed)
    && (a.callbackActive ==> holder.Some? && HoldsGuard(holder.value))
  }

  predicate HeldBy(s: Sys, id: nat, x: Option<Act>) {
    x.Some? ==> x.value in s.frames && s.frames[x.value].attempt == id
  }

  /** Locks are held only by calls in progress on that attempt. */
  predicate LocksInv(s: Sys, id: nat)
    requires id in s.attempts
  {
    var a := s.attempts[id];
    && HeldBy(s, id, a.dispatch)
    && HeldBy(s, id, a.last)
    && HeldBy(s, id, a.closer)
    && Account(a, if a.dispatch.Some? then Some(s.frames[a.dispatch.value]) else None, a.handle in s.failed)
  }

  /** The thread flag is set exactly during a callback, and nested calls never call back. */
  predicate Flag(f: Option<Frame>, p: Act, scope: bool) {
    if p.nested then
      && scope
      && (f.Some? ==>
            && !InScope(f.value)
            && (f.value.op.FinalDrop? || (f.value.op.Orthogonal? && f.value.pc == MarkFailed)))
    else
      (scope <==> f.Some? && InScope(f.value))
  }

  predicate CallInv(s: Sys, p: Act)
    requires p in s.frames
  {
    && s.frames[p].attempt in s.attempts
    && FrameInv(s.frames[p], p, s.attempts[s.frames[p].attempt], s.attempts[s.frames[p].attempt].handle in s.failed)
    && Flag(Some(s.frames[p]), p, p.thread in s.scope)
    && (p.nested ==> Act(p.thread, false) in s.frames && s.frames[Act(p.thread, false)].pc == InCallback)
  }

  /** The final drop is alone on its attempt. */
  ghost predicate Alone(s: Sys) {
    forall p, q :: p in s.frames && q in s.frames ==>
      (s.frames[p].op.FinalDrop? && s.frames[p].attempt == s.frames[q].attempt ==> p == q)
  }

  ghost predicate CallsInv(s: Sys) {
    && (forall p :: p in s.frames ==> CallInv(s, p))
    && (forall t :: t in s.scope ==> Act(t, false) in s.frames)
    && Alone(s)
  }

  ghost predicate AttemptsInv(s: Sys) {
    forall id :: id in s.attempts ==>
      AttemptInv(s.attempts[id], s.attempts[id].handle in s.failed, s.now) && LocksInv(s, id)
  }

  ghost predicate Inv(s: Sys) {
    CallsInv(s) && AttemptsInv(s)
  }

  // ---------------------------------------------------------------------------------------------
  // One instruction
  // ---------------------------------------------------------------------------------------------

  predicate Unblocked(a: Attempt, f: Frame) {
    (f.pc == AcquireDispatch ==> a.dispatch.None?) && (f.pc == AcquireLast ==> a.last.None?)
  }

  predicate Debt(a: Attempt, f: Option<Frame>, p: Act, failed: bool) {
    a.dispatch == None || a.dispatch == Some(p) ==> Account(a, if a.dispatch.Some? then f else None, failed)
  }

  /** What the acting call may assume about its surroundings. */
  ghost predicate Ready(a: Attempt, f: Frame, p: Act, failed: bool, scope: bool, now: nat) {
    && AttemptInv(a, failed, now)
    && FrameInv(f, p, a, failed)
    && Unblocked(a, f)
    && Debt(a, Some(f), p, failed)
    && Flag(Some(f), p, scope)
  }

  /** The attempt changed at most its locks and flags, and reported a violation. */
  predicate SameRecord(a: Attempt, b: Attempt) {
    && a.violations <= b.violations
    && b == a.(dispatch := b.dispatch, last := b.last, callbackActive := b.callbackActive,
               violations := b.violations, notices := b.notices)
  }

  lemma ReturnStays(r: Return, a: Attempt, b: Attempt)
    requires ReturnTrue(r, a)
    requires a.history <= b.history && a.events <= b.events && a.violations <= b.violations
    requires a.disarmed ==> b.disarmed
    ensures ReturnTrue(r, b)
  {
  }

  lemma RepliesStay(a: Attempt, b: Attempt)
    requires forall i :: 0 <= i < |a.replies| ==> ReturnTrue(a.replies[i], a)
    requires a.history <= b.history && a.events <= b.events && a.violations <= b.violations
    requires a.disarmed ==> b.disarmed
    ensures forall i :: 0 <= i < |a.replies| ==> ReturnTrue(a.replies[i], b)
  {
    forall i | 0 <= i < |a.replies| ensures ReturnTrue(a.replies[i], b) {
      ReturnStays(a.replies[i], a, b);
    }
  }

  lemma SameRecordKeeps(a: Attempt, b: Attempt, failed: bool, poisoned: bool, now: nat)
    requires AttemptInv(a, failed, now) && SameRecord(a, b) && (failed ==> poisoned)
    ensures AttemptInv(b, poisoned, now)
  {
    RepliesStay(a, b);
  }

  lemma ReplyKeeps(a: Attempt, f: Frame, b: Attempt, failed: bool, now: nat)
    requires AttemptInv(a, failed, now)
    requires ReturnTrue(Return(f.op, f.result, f.seen, f.wrote), a)
    requires Blames(Return(f.op, f.result, f.seen, f.wrote), failed)
    requires b == a.(replies := a.replies + [Return(f.op, f.result, f.seen, f.wrote)])
    ensures AttemptInv(b, failed, now)
  {
    RepliesStay(a, b);
    ReturnStays(Return(f.op, f.result, f.seen, f.wrote), a, b);
  }

  lemma HistoryGrows(history: seq<Event>, e: Event, events: seq<Event>)
    requires Chained(history) && LegalWrite(e) && e.previous == StateAfter(history) && events <= history
    ensures Chained(history + [e]) && StateAfter(history + [e]) == e.next && events <= history + [e]
    ensures Elapsed(history + [e]) == Elapsed(history) + e.elapsed
  {
    var longer := history + [e];
    assert longer[..|history|] == history;
    assert forall i :: 0 <= i < |history| ==> longer[i] == history[i] && longer[..i] == history[..i];
  }

  lemma WriteKeeps(a: Attempt, next: AttemptState, outcome: Option<Outcome>, failed: bool, now: nat)
    requires AttemptInv(a, failed, now)
    requires LegalWrite(Event(a.state, next, outcome, now - a.lastAt))
    requires !a.disarmed && (a.tokens == {} ==> a.closer.Some?)
    ensures AttemptInv(Write(a, a.state, next, outcome, failed, now), failed, now)
  {
    var e := Event(a.state, next, outcome, now - a.lastAt);
    var b := Write(a, a.state, next, outcome, failed, now);
    assert b.history == a.history + [e];
    HistoryGrows(a.history, e, a.events);
    RepliesStay(a, b);
  }

  lemma HandOverKeeps(a: Attempt, failed: bool, now: nat)
    requires AttemptInv(a, failed, now) && |a.events| == |a.history| - 1 && a.clean == |a.history|
    ensures AttemptInv(a.(events := a.events + [a.history[|a.history| - 1]]), failed, now)
  {
    RepliesStay(a, a.(events := a.events + [a.history[|a.history| - 1]]));
  }

  lemma DisarmKeeps(a: Attempt, failed: bool, now: nat)
    requires AttemptInv(a, failed, now) && a.state == Offered
    ensures AttemptInv(a.(disarmed := true), failed, now)
  {
    RepliesStay(a, a.(disarmed := true));
  }

  lemma EntryKeepsAttempt(a: Attempt, f: Frame, p: Act, failed: bool, scope: bool, now: nat)
    requires Ready(a, f, p, failed, scope, now) && Entering(f)
    ensures var e := EntryStep(a, f, p, failed, scope); AttemptInv(e.a, failed || e.poisons, now)
  {
    var e := EntryStep(a, f, p, failed, scope);
    if f.pc == CheckActive && a.callbackActive {
      ReplyKeeps(a, f.(result := Failed(ReentrantObserver)), e.a, failed, now);
    } else if f.pc == CheckFailed && failed {
      ReplyKeeps(a, f.(result := Failed(AttemptPoisoned)), e.a, failed, now);
    } else {
      SameRecordKeeps(a, e.a, failed, failed, now);
    }
  }

  lemma StoreKeepsAttempt(a: Attempt, f: Frame, p: Act, failed: bool, scope: bool, now: nat)
    requires AttemptInv(a, failed, now) && Holding(f, p, a) && Loaded(f, a) && f.pc == StoreState
    ensures AttemptInv(LockedStep(a, f, p, failed, scope, now).a, failed, now)
  {
    if f.op.Transition? { WriteKeeps(a, f.op.next, f.op.outcome, failed, now); }
    else { WriteKeeps(a, Abandoned, None, failed, now); }
  }

  lemma UnlockKeepsAttempt(a: Attempt, f: Frame, p: Act, failed: bool, scope: bool, now: nat)
    requires AttemptInv(a, failed, now) && f.pc == ReleaseLast
    requires Answer(f, a) && Delivery(f, a, failed) && Blame(f, failed)
    ensures AttemptInv(LockedStep(a, f, p, failed, scope, now).a, failed, now)
  {
    var b := a.(last := None);
    SameRecordKeeps(a, b, failed, failed, now);
    if f.op.Disarm? { ReplyKeeps(b, f, LockedStep(a, f, p, failed, scope, now).a, failed, now); }
  }

  lemma LockedKeepsAttempt(a: Attempt, f: Frame, p: Act, failed: bool, scope: bool, now: nat)
    requires Ready(a, f, p, failed, scope, now) && Locking(f)
    ensures var e := LockedStep(a, f, p, failed, scope, now); AttemptInv(e.a, failed || e.poisons, now)
  {
    match f.pc
    case StoreState => StoreKeepsAttempt(a, f, p, failed, scope, now);
    case StoreDisarmed => DisarmKeeps(a, failed, now);
    case ReleaseLast => UnlockKeepsAttempt(a, f, p, failed, scope, now);
    case AcquireLast | RecheckFailed | LoadState | LoadDisarmed =>
      SameRecordKeeps(a, LockedStep(a, f, p, failed, scope, now).a, failed, failed, now);
  }

  lemma NotifyKeepsRecord(a: Attempt, f: Frame, failed: bool, scope: bool, panics: bool)
    requires Notifying(f) && (f.pc == Invoke ==> f.wrote.None?)
    ensures SameRecord(a, NotifyStep(a, f, failed, scope, panics).a)
  {
  }

  lemma NotifyKeepsAttempt(a: Attempt, f: Frame, p: Act, failed: bool, scope: bool, now: nat, panics: bool)
    requires Ready(a, f, p, failed, scope, now) && Notifying(f)
    ensures var e := NotifyStep(a, f, failed, scope, panics); AttemptInv(e.a, failed || e.poisons, now)
  {
    if f.pc == Invoke && f.wrote.Some? {
      HandOverKeeps(a, failed, now);
    } else {
      NotifyKeepsRecord(a, f, failed, scope, panics);
      SameRecordKeeps(a, NotifyStep(a, f, failed, scope, panics).a, failed, failed, now);
    }
  }

  lemma ReleaseKeepsAttempt(a: Attempt, f: Frame, p: Act, failed: bool, scope: bool, now: nat)
    requires AttemptInv(a, failed, now) && FrameInv(f, p, a, failed) && f.pc == ReleaseDispatch
    ensures AttemptInv(LeaveStep(a, f, scope).a, failed, now)
  {
    var e := LeaveStep(a, f, scope);
    var b := a.(dispatch := None, closer := e.a.closer);
    RepliesStay(a, b);
    ReplyKeeps(b, f, e.a, failed, now);
  }

  lemma LeaveKeepsAttempt(a: Attempt, f: Frame, p: Act, failed: bool, scope: bool, now: nat)
    requires Ready(a, f, p, failed, scope, now) && Leaving(f)
    ensures var e := LeaveStep(a, f, scope); AttemptInv(e.a, failed || e.poisons, now)
  {
    var e := LeaveStep(a, f, scope);
    if f.pc == ReleaseDispatch {
      ReleaseKeepsAttempt(a, f, p, failed, scope, now);
    } else if e.f.None? {
      SameRecordKeeps(a, a, failed, failed || e.poisons, now);
      ReplyKeeps(a, f, e.a, failed || e.poisons, now);
    } else {
      SameRecordKeeps(a, e.a, failed, failed || e.poisons, now);
    }
  }

  // The acting call keeps its own part of the invariant.

  lemma EntryKeepsFrame(a: Attempt, f: Frame, p: Act, failed: bool, scope: bool)
    requires FrameInv(f, p, a, failed) && Unblocked(a, f) && Entering(f)
    ensures var e := EntryStep(a, f, p, failed, scope);
            e.f.Some? ==> FrameInv(e.f.value, p, e.a, failed)
  {
  }

  lemma StoreKeepsFrame(a: Attempt, f: Frame, p: Act, failed: bool, scope: bool, now: nat)
    requires FrameInv(f, p, a, failed) && Debt(a, Some(f), p, failed) && f.pc == StoreState
    ensures var e := LockedStep(a, f, p, failed, scope, now);
            e.f.Some? && FrameInv(e.f.value, p, e.a, failed)
  {
  }

  lemma LoadKeepsFrame(a: Attempt, f: Frame, p: Act, failed: bool, scope: bool, now: nat)
    requires FrameInv(f, p, a, failed) && f.pc in {LoadState, LoadDisarmed} && a.state == StateAfter(a.history)
    ensures var e := LockedStep(a, f, p, failed, scope, now);
            e.f.Some? && FrameInv(e.f.value, p, e.a, failed)
  {
    var e := LockedStep(a, f, p, failed, scope, now);
    assert e.f.Some? && e.a == a;
    assert Delivery(e.f.value, a, failed) && Blame(e.f.value, failed);
  }

  lemma LockedKeepsFrame(a: Attempt, f: Frame, p: Act, failed: bool, scope: bool, now: nat)
    requires FrameInv(f, p, a, failed) && Unblocked(a, f) && Locking(f)
    requires a.state == StateAfter(a.history) && Debt(a, Some(f), p, failed)
    ensures var e := LockedStep(a, f, p, failed, scope, now);
            e.f.Some? ==> FrameInv(e.f.value, p, e.a, failed)
  {
    match f.pc
    case StoreState => StoreKeepsFrame(a, f, p, failed, scope, now);
    case LoadState | LoadDisarmed => LoadKeepsFrame(a, f, p, failed, scope, now);
    case AcquireLast | ReleaseLast =>
    case RecheckFailed | StoreDisarmed =>
  }

  lemma NotifyKeepsHold(a: Attempt, f: Frame, p: Act, failed: bool, scope: bool, panics: bool)
    requires Holding(f, p, a) && Loaded(f, a) && Blame(f, failed) && Notifying(f) && Flag(Some(f), p, scope)
    ensures var e := NotifyStep(a, f, failed, scope, panics);
            e.f.Some? && Holding(e.f.value, p, e.a) && Loaded(e.f.value, e.a) && Blame(e.f.value, failed)
  {
  }

  lemma NotifyKeepsDelivery(a: Attempt, f: Frame, failed: bool, scope: bool, panics: bool)
    requires PcOfOp(f) && Delivery(f, a, failed) && Notifying(f) && (!failed ==> a.clean == |a.history|)
    ensures var e := NotifyStep(a, f, failed, scope, panics);
            e.f.Some? && Delivery(e.f.value, e.a, failed)
  {
  }

  lemma NotifyKeepsAnswer(a: Attempt, f: Frame, failed: bool, scope: bool, panics: bool)
    requires PcOfOp(f) && Delivery(f, a, failed) && Answer(f, a) && Notifying(f)
    ensures var e := NotifyStep(a, f, failed, scope, panics);
            e.f.Some? && Answer(e.f.value, e.a)
  {
  }

  lemma NotifyKeepsFrame(a: Attempt, f: Frame, p: Act, failed: bool, scope: bool, panics: bool)
    requires FrameInv(f, p, a, failed) && Notifying(f)
    requires (!failed ==> a.clean == |a.history|) && Flag(Some(f), p, scope)
    ensures var e := NotifyStep(a, f, failed, scope, panics);
            e.f.Some? ==> FrameInv(e.f.value, p, e.a, failed)
  {
    NotifyKeepsHold(a, f, p, failed, scope, panics);
    NotifyKeepsDelivery(a, f, failed, scope, panics);
    NotifyKeepsAnswer(a, f, failed, scope, panics);
  }

  lemma LeaveKeepsHold(a: Attempt, f: Frame, p: Act, failed: bool, scope: bool)
    requires Holding(f, p, a) && Loaded(f, a) && Blame(f, failed) && Leaving(f)
    ensures var e := LeaveStep(a, f, scope);
            e.f.Some? ==> Holding(e.f.value, p, e.a) && Loaded(e.f.value, e.a) && Blame(e.f.value, failed || e.poisons)
  {
  }

  lemma LeaveKeepsDelivery(a: Attempt, f: Frame, p: Act, failed: bool, scope: bool)
    requires PcOfOp(f) && Delivery(f, a, failed) && Leaving(f)
    ensures var e := LeaveStep(a, f, scope);
            e.f.Some? ==> Delivery(e.f.value, e.a, failed || e.poisons)
  {
  }

  lemma LeaveKeepsAnswer(a: Attempt, f: Frame, scope: bool)
    requires PcOfOp(f) && Answer(f, a) && Leaving(f)
    ensures var e := LeaveStep(a, f, scope);
            e.f.Some? ==> Answer(e.f.value, e.a)
  {
  }

  lemma LeaveKeepsFrame(a: Attempt, f: Frame, p: Act, failed: bool, scope: bool)
    requires FrameInv(f, p, a, failed) && Leaving(f)
    ensures var e := LeaveStep(a, f, scope);
            e.f.Some? ==> FrameInv(e.f.value, p, e.a, failed || e.poisons)
  {
    LeaveKeepsHold(a, f, p, failed, scope);
    LeaveKeepsDelivery(a, f, p, failed, scope);
    LeaveKeepsAnswer(a, f, scope);
  }

  // What one call guarantees to all others.

  predicate SameOrOwn(x: Option<Act>, y: Option<Act>, p: Act) {
    x == y || (x in {None, Some(p)} && y in {None, Some(p)})
  }

  /** Only the holder of both locks writes, only the holder of the dispatch lock hands over. */
  predicate Guarantee(a: Attempt, b: Attempt, p: Act) {
    && SameOrOwn(a.dispatch, b.dispatch, p)
    && SameOrOwn(a.last, b.last, p)
    && SameOrOwn(a.closer, b.closer, p)
    && a.tokens == b.tokens
    && a.handle == b.handle
    && (a.dispatch == Some(p) == a.last || (a.state == b.state && a.history == b.history && a.clean == b.clean))
    && (a.dispatch == Some(p) || (a.events == b.events && a.callbackActive == b.callbackActive))
    && (a.last == Some(p) || a.disarmed == b.disarmed)
    && (a.disarmed ==> b.disarmed)
    && a.history <= b.history
    && a.events <= b.events
    && a.violations <= b.violations
    && a.replies <= b.replies
  }

  lemma EntryGuarantee(a: Attempt, f: Frame, p: Act, failed: bool, scope: bool)
    requires Holding(f, p, a) && Unblocked(a, f) && Entering(f)
    ensures Guarantee(a, EntryStep(a, f, p, failed, scope).a, p)
  {
  }

  lemma StoreGuarantee(a: Attempt, f: Frame, p: Act, failed: bool, scope: bool, now: nat)
    requires HoldsDispatch(f) <==> a.dispatch == Some(p)
    requires HoldsLast(f) <==> a.last == Some(p)
    requires PcOfOp(f) && f.pc in {StoreState, StoreDisarmed}
    ensures Guarantee(a, LockedStep(a, f, p, failed, scope, now).a, p)
  {
  }

  lemma LockedGuarantee(a: Attempt, f: Frame, p: Act, failed: bool, scope: bool, now: nat)
    requires Holding(f, p, a) && Unblocked(a, f) && Locking(f)
    ensures Guarantee(a, LockedStep(a, f, p, failed, scope, now).a, p)
  {
    if f.pc in {StoreState, StoreDisarmed} { StoreGuarantee(a, f, p, failed, scope, now); }
  }

  lemma NotifyGuarantee(a: Attempt, f: Frame, p: Act, failed: bool, scope: bool, panics: bool)
    requires Holding(f, p, a) && Unblocked(a, f) && Notifying(f)
    ensures Guarantee(a, NotifyStep(a, f, failed, scope, panics).a, p)
  {
  }

  lemma LeaveGuarantee(a: Attempt, f: Frame, p: Act, failed: bool, scope: bool)
    requires PcOfOp(f) && (f.op.FinalDrop? <==> a.closer == Some(p)) && (HoldsDispatch(f) <==> a.dispatch == Some(p))
    requires Leaving(f)
    ensures Guarantee(a, LeaveStep(a, f, scope).a, p)
  {
    if f.pc == ReleaseDispatch { ReleaseGuarantee(a, f, p, scope); }
    else {
      var b := LeaveStep(a, f, scope).a;
      assert b == a.(callbackActive := b.callbackActive, replies := b.replies);
    }
  }

  lemma ReleaseGuarantee(a: Attempt, f: Frame, p: Act, scope: bool)
    requires a.dispatch == Some(p) && (f.op.FinalDrop? <==> a.closer == Some(p)) && f.pc == ReleaseDispatch
    ensures Guarantee(a, LeaveStep(a, f, scope).a, p)
  {
    var b := LeaveStep(a, f, scope).a;
    assert b == a.(dispatch := None, closer := b.closer, replies := b.replies);
  }

  lemma OthersUnharmed(g: Frame, q: Act, p: Act, a: Attempt, b: Attempt, failed: bool, poisoned: bool)
    requires FrameInv(g, q, a, failed) && q != p && Guarantee(a, b, p) && (failed ==> poisoned)
    ensures FrameInv(g, q, b, poisoned)
  {
  }

  // The locks, the flags and the outstanding event after one instruction.

  predicate Released(a: Attempt, f: Option<Frame>, p: Act) {
    f.None? ==> a.dispatch != Some(p) && a.last != Some(p) && a.closer != Some(p)
  }

  lemma EntryEdges(a: Attempt, f: Frame, p: Act, failed: bool, scope: bool)
    requires Holding(f, p, a) && Unblocked(a, f) && Entering(f)
    requires Debt(a, Some(f), p, failed) && Flag(Some(f), p, scope)
    ensures var e := EntryStep(a, f, p, failed, scope);
            Debt(e.a, e.f, p, failed) && Flag(e.f, p, e.scope) && Released(e.a, e.f, p)
  {
  }

  lemma LockedEdges(a: Attempt, f: Frame, p: Act, failed: bool, scope: bool, now: nat)
    requires Holding(f, p, a) && Locking(f)
    requires Debt(a, Some(f), p, failed) && Flag(Some(f), p, scope)
    ensures var e := LockedStep(a, f, p, failed, scope, now);
            Debt(e.a, e.f, p, failed) && Flag(e.f, p, e.scope) && Released(e.a, e.f, p)
  {
  }

  lemma NotifyEdges(a: Attempt, f: Frame, p: Act, failed: bool, scope: bool, panics: bool)
    requires Holding(f, p, a) && Delivery(f, a, failed) && a.events <= a.history && Notifying(f)
    requires Debt(a, Some(f), p, failed) && Flag(Some(f), p, scope)
    ensures var e := NotifyStep(a, f, failed, scope, panics);
            Debt(e.a, e.f, p, failed) && Flag(e.f, p, e.scope) && Released(e.a, e.f, p)
  {
  }

  lemma LeaveEdges(a: Attempt, f: Frame, p: Act, failed: bool, scope: bool)
    requires Holding(f, p, a) && Leaving(f)
    requires Debt(a, Some(f), p, failed) && Flag(Some(f), p, scope)
    ensures var e := LeaveStep(a, f, scope);
            Debt(e.a, e.f, p, failed || e.poisons) && Flag(e.f, p, e.scope) && Released(e.a, e.f, p)
  {
  }

  // Every instruction brings its call closer to its return.

  /** A bound on the instructions a call still has to execute. */
  function Remaining(pc: Pc): nat {
    match pc
    case CheckActive => 19
    case CheckFailed => 18
    case AcquireDispatch => 17
    case CheckFailedLocked => 16
    case AcquireLast => 15
    case RecheckFailed => 14
    case LoadState => 13
    case LoadDisarmed => 12
    case StoreState => 11
    case StoreDisarmed => 11
    case ReleaseLast => 10
    case NotifyCheck => 9
    case EnterScope => 8
    case EnterGuard => 7
    case Invoke => 6
    case InCallback => 5
    case MarkFailed => 4
    case LeaveGuard => 3
    case LeaveScope => 2
    case ReleaseDispatch => 1
  }

  predicate Progress(f: Frame, e: Effect) {
    e.f.Some? ==>
      && e.f.value.op == f.op
      && e.f.value.attempt == f.attempt
      && Remaining(e.f.value.pc) < Remaining(f.pc)
  }

  lemma EntryProgress(a: Attempt, f: Frame, p: Act, failed: bool, scope: bool)
    requires Entering(f)
    ensures Progress(f, EntryStep(a, f, p, failed, scope))
  {
  }

  lemma LockedProgress(a: Attempt, f: Frame, p: Act, failed: bool, scope: bool, now: nat)
    requires Locking(f)
    ensures Progress(f, LockedStep(a, f, p, failed, scope, now))
  {
  }

  lemma NotifyProgress(a: Attempt, f: Frame, p: Act, failed: bool, scope: bool, panics: bool)
    requires Notifying(f)
    ensures Progress(f, NotifyStep(a, f, failed, scope, panics))
  {
  }

  lemma LeaveProgress(a: Attempt, f: Frame, p: Act, failed: bool, scope: bool)
    requires Leaving(f)
    ensures Progress(f, LeaveStep(a, f, scope))
  {
  }

  // All instructions together.

  lemma MicroKeepsAttempt(a: Attempt, f: Frame, p: Act, failed: bool, scope: bool, now: nat, panics: bool)
    requires Ready(a, f, p, failed, scope, now)
    ensures var e := Micro(a, f, p, failed, scope, now, panics);
            AttemptInv(e.a, failed || e.poisons, now)
  {
    if Entering(f) { EntryKeepsAttempt(a, f, p, failed, scope, now); }
    else if Locking(f) { LockedKeepsAttempt(a, f, p, failed, scope, now); }
    else if Notifying(f) { NotifyKeepsAttempt(a, f, p, failed, scope, now, panics); }
    else { LeaveKeepsAttempt(a, f, p, failed, scope, now); }
  }

  lemma MicroKeepsFrame(a: Attempt, f: Frame, p: Act, failed: bool, scope: bool, now: nat, panics: bool)
    requires Ready(a, f, p, failed, scope, now)
    ensures var e := Micro(a, f, p, failed, scope, now, panics);
            e.f.Some? ==> FrameInv(e.f.value, p, e.a, failed || e.poisons)
  {
    if Entering(f) { EntryKeepsFrame(a, f, p, failed, scope); }
    else if Locking(f) { LockedKeepsFrame(a, f, p, failed, scope, now); }
    else if Notifying(f) { NotifyKeepsFrame(a, f, p, failed, scope, panics); }
    else { LeaveKeepsFrame(a, f, p, failed, scope); }
  }

  lemma MicroGuarantee(a: Attempt, f: Frame, p: Act, failed: bool, scope: bool, now: nat, panics: bool)
    requires Ready(a, f, p, failed, scope, now)
    ensures var e := Micro(a, f, p, failed, scope, now, panics);
            Guarantee(a, e.a, p)
  {
    if Entering(f) { EntryGuarantee(a, f, p, failed, scope); }
    else if Locking(f) { LockedGuarantee(a, f, p, failed, scope, now); }
    else if Notifying(f) { NotifyGuarantee(a, f, p, failed, scope, panics); }
    else { LeaveGuarantee(a, f, p, failed, scope); }
  }

  lemma MicroEdges(a: Attempt, f: Frame, p: Act, failed: bool, scope: bool, now: nat, panics: bool)
    requires Ready(a, f, p, failed, scope, now)
    ensures var e := Micro(a, f, p, failed, scope, now, panics);
            Debt(e.a, e.f, p, failed || e.poisons) && Flag(e.f, p, e.scope) && Released(e.a, e.f, p)
  {
    if Entering(f) { EntryEdges(a, f, p, failed, scope); }
    else if Locking(f) { LockedEdges(a, f, p, failed, scope, now); }
    else if Notifying(f) { NotifyEdges(a, f, p, failed, scope, panics); }
    else { LeaveEdges(a, f, p, failed, scope); }
  }

  lemma MicroProgress(a: Attempt, f: Frame, p: Act, failed: bool, scope: bool, now: nat, panics: bool)
    ensures Progress(f, Micro(a, f, p, failed, scope, now, panics))
  {
    if Entering(f) { EntryProgress(a, f, p, failed, scope); }
    else if Locking(f) { LockedProgress(a, f, p, failed, scope, now); }
    else if Notifying(f) { NotifyProgress(a, f, p, failed, scope, panics); }
    else { LeaveProgress(a, f, p, failed, scope); }
  }
}
