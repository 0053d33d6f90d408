/**
 What a call of the attempt protocol achieves when nothing disturbs it, whether its callback returns
 or panics; and when a call is turned away as reentrant.
 */
module AttemptProgress {
  import opened Options
  import opened AttemptMachine
  import opened AttemptInvariant
  import opened AttemptRuns
  import opened AttemptTheorems

  // ---------------------------------------------------------------------------------------------
  // An undisturbed call
  // ---------------------------------------------------------------------------------------------

  predicate Legal(a: Attempt, op: Op)
    requires op.Transition?
  {
    Accepts(a.state, op.next, op.outcome) && (a.state == Offered ==> !a.disarmed)
  }

  predicate Unlocked(a: Attempt) {
    a.dispatch.None? && a.last.None? && !a.callbackActive
  }

  /** Whether the call changes the state: a legal transition, or a final drop before the end. */
  predicate Writes(a: Attempt, op: Op) {
    match op
    case Transition(_, _) => Legal(a, op)
    case FinalDrop => !Settled(a.state)
    case _ => false
  }

  predicate CallsBack(a: Attempt, op: Op) {
    op.Transition? || op.Orthogonal? || Writes(a, op)
  }

  /** The attempt after the critical section. */
  function Stored(a: Attempt, op: Op, now: nat): Attempt {
    if !Writes(a, op) then a
    else if op.Transition? then Write(a, a.state, op.next, op.outcome, false, now)
    else Write(a, a.state, Abandoned, None, false, now)
  }

  /** And after the observer was told. */
  function Told(a: Attempt, op: Op, now: nat): Attempt {
    var b := Stored(a, op, now);
    if Writes(a, op) then b.(events := b.events + [b.history[|a.history|]])
    else if op.Transition? then b.(violations := b.violations + [(a.state, op.next)])
    else if op.Orthogonal? then b.(notices := b.notices + 1)
    else b
  }

  function Wrote(a: Attempt, op: Op): Option<nat> {
    if Writes(a, op) then Some(|a.history|) else None
  }

  function Answered(a: Attempt, op: Op, panics: bool): CallResult {
    if panics && CallsBack(a, op) then Failed(ObserverPanicked)
    else if op.Transition? && !Writes(a, op) then Failed(InvalidTransition)
    else if op.Disarm? then Disarmed(a.state == Offered)
    else Done
  }

  /** The attempt once the call has returned. */
  function Finished(a: Attempt, op: Op, now: nat, panics: bool): Attempt {
    var seen := if op.Orthogonal? then Offered else a.state;
    Told(a, op, now).(disarmed := a.disarmed || (op.Disarm? && a.state == Offered),
                      closer := if op.FinalDrop? then None else a.closer,
                      replies := a.replies + [Return(op, Answered(a, op, panics), seen, Wrote(a, op))])
  }

  /** Where an undisturbed transition or final drop that began on attempt `o` stands at each instruction. */
  predicate WriterTrack(o: Attempt, op: Op, p: Act, now: nat, panics: bool, a: Attempt, f: Frame, scope: bool) {
    var stored, told := Stored(o, op, now).(dispatch := Some(p)), Told(o, op, now).(dispatch := Some(p));
    && (BeforeStore(f) ==> f.wrote.None?)
    && (!BeforeStore(f) ==> f.wrote == Wrote(o, op))
    && (f.pc in {LoadDisarmed, StoreState} || !BeforeStore(f) ==> f.seen == o.state)
    && (scope <==> f.pc in {EnterGuard, Invoke, InCallback, MarkFailed, LeaveGuard, LeaveScope})
    && (op.FinalDrop? && !Writes(o, op) ==> f.result == Done)
    && match f.pc
       case CheckActive | CheckFailed => a == o && op.Transition?
       case AcquireDispatch => a == o
       case CheckFailedLocked => a == o.(dispatch := Some(p)) && op.Transition?
       case AcquireLast => a == o.(dispatch := Some(p))
       case LoadState => a == o.(dispatch := Some(p), last := Some(p))
       case LoadDisarmed => a == o.(dispatch := Some(p), last := Some(p)) && o.state == Offered && op.Transition?
       case StoreState => a == o.(dispatch := Some(p), last := Some(p)) && Writes(o, op)
       case ReleaseLast => a == stored.(last := Some(p))
       case NotifyCheck | EnterScope | EnterGuard => a == stored && CallsBack(o, op)
       case Invoke => a == stored.(callbackActive := true) && CallsBack(o, op)
       case InCallback => a == told.(callbackActive := true) && CallsBack(o, op)
       case MarkFailed =>
         a == told.(callbackActive := true) && CallsBack(o, op) && panics && f.result == Answered(o, op, panics)
       case LeaveGuard => a == told.(callbackActive := true) && CallsBack(o, op) && f.result == Answered(o, op, panics)
       case LeaveScope => a == told && CallsBack(o, op) && f.result == Answered(o, op, panics)
       case ReleaseDispatch => a == told && f.result == Answered(o, op, panics)
       case _ => false
  }

  predicate DisarmTrack(o: Attempt, p: Act, a: Attempt, f: Frame, scope: bool) {
    && f.wrote.None? && !scope
    && match f.pc
       case CheckActive | CheckFailed | AcquireLast => a == o
       case RecheckFailed | LoadState => a == o.(last := Some(p))
       case StoreDisarmed => a == o.(last := Some(p)) && f.seen == o.state == Offered
       case ReleaseLast =>
         && a == o.(last := Some(p), disarmed := o.disarmed || o.state == Offered)
         && f.seen == o.state && f.result == Disarmed(o.state == Offered)
       case _ => false
  }

  predicate OrthogonalTrack(o: Attempt, panics: bool, a: Attempt, f: Frame, scope: bool) {
    var told := o.(notices := o.notices + 1);
    && f.wrote.None? && f.seen == Offered
    && (scope <==> f.pc in {Invoke, InCallback, MarkFailed, LeaveScope})
    && match f.pc
       case CheckFailed | EnterScope | Invoke => a == o
       case InCallback => a == told
       case MarkFailed => a == told && panics && f.result == Failed(ObserverPanicked)
       case LeaveScope => a == told && f.result == if panics then Failed(ObserverPanicked) else Done
       case _ => false
  }

  predicate OnTrack(o: Attempt, op: Op, p: Act, now: nat, panics: bool, a: Attempt, f: Frame, scope: bool) {
    && f.op == op && a.handle == o.handle
    && match op
       case Transition(_, _) => WriterTrack(o, op, p, now, panics, a, f, scope)
       case FinalDrop => WriterTrack(o, op, p, now, panics, a, f, scope)
       case Disarm => DisarmTrack(o, p, a, f, scope)
       case Orthogonal => OrthogonalTrack(o, panics, a, f, scope)
  }

  /** The panic of the callback has been noted. */
  predicate Noted(f: Frame) {
    f.result == Failed(ObserverPanicked) && f.pc in {LeaveGuard, LeaveScope, ReleaseDispatch}
  }

  /** One instruction of it stays on track or finishes the call, and poisons where it notes a panic. */
  predicate Follows(o: Attempt, op: Op, p: Act, now: nat, panics: bool, f: Frame, e: Effect) {
    && (e.poisons <==> f.pc == MarkFailed)
    && if e.f.Some? then
         && OnTrack(o, op, p, now, panics, e.a, e.f.value, e.scope) && e.f.value.attempt == f.attempt
         && (Noted(e.f.value) <==> f.pc == MarkFailed || Noted(f))
       else
         && e.a == Finished(o, op, now, panics) && !e.scope
         && (panics && CallsBack(o, op) <==> Noted(f))
  }

  lemma DisarmEnters(o: Attempt, p: Act, now: nat, panics: bool, a: Attempt, f: Frame, scope: bool)
    requires Unlocked(o) && OnTrack(o, Disarm, p, now, panics, a, f, scope) && Entering(f)
    ensures Unblocked(a, f) && Follows(o, Disarm, p, now, panics, f, EntryStep(a, f, p, false, scope))
  {
  }

  lemma DisarmLocks(o: Attempt, p: Act, now: nat, panics: bool, a: Attempt, f: Frame, scope: bool)
    requires Unlocked(o) && OnTrack(o, Disarm, p, now, panics, a, f, scope) && Locking(f)
    ensures Unblocked(a, f) && Follows(o, Disarm, p, now, panics, f, LockedStep(a, f, p, false, scope, now))
  {
  }

  lemma DisarmFollows(o: Attempt, p: Act, now: nat, panics: bool, a: Attempt, f: Frame, scope: bool)
    requires Unlocked(o) && OnTrack(o, Disarm, p, now, panics, a, f, scope)
    ensures Unblocked(a, f) && Follows(o, Disarm, p, now, panics, f, Micro(a, f, p, false, scope, now, panics))
  {
    if Entering(f) { DisarmEnters(o, p, now, panics, a, f, scope); }
    else { DisarmLocks(o, p, now, panics, a, f, scope); }
  }

  lemma OrthogonalEnters(o: Attempt, p: Act, now: nat, panics: bool, a: Attempt, f: Frame, scope: bool)
    requires OnTrack(o, Orthogonal, p, now, panics, a, f, scope) && Entering(f)
    ensures Follows(o, Orthogonal, p, now, panics, f, EntryStep(a, f, p, false, scope))
  {
  }

  lemma OrthogonalNotifies(o: Attempt, p: Act, now: nat, panics: bool, a: Attempt, f: Frame, scope: bool)
    requires OnTrack(o, Orthogonal, p, now, panics, a, f, scope) && Notifying(f)
    ensures Follows(o, Orthogonal, p, now, panics, f, NotifyStep(a, f, false, scope, panics))
  {
  }

  lemma OrthogonalLeaves(o: Attempt, p: Act, now: nat, panics: bool, a: Attempt, f: Frame, scope: bool)
    requires OnTrack(o, Orthogonal, p, now, panics, a, f, scope) && Leaving(f)
    ensures Follows(o, Orthogonal, p, now, panics, f, LeaveStep(a, f, scope))
  {
  }

  lemma OrthogonalFollows(o: Attempt, p: Act, now: nat, panics: bool, failed: bool, a: Attempt, f: Frame, scope: bool)
    requires OnTrack(o, Orthogonal, p, now, panics, a, f, scope) && (failed <==> Noted(f))
    ensures Unblocked(a, f) && Follows(o, Orthogonal, p, now, panics, f, Micro(a, f, p, failed, scope, now, panics))
  {
    if Entering(f) { OrthogonalEnters(o, p, now, panics, a, f, scope); }
    else if Notifying(f) { OrthogonalNotifies(o, p, now, panics, a, f, scope); }
    else { OrthogonalLeaves(o, p, now, panics, a, f, scope); }
  }

  lemma EntryFollows(o: Attempt, op: Op, p: Act, now: nat, panics: bool, a: Attempt, f: Frame, scope: bool)
    requires (op.Transition? || op.FinalDrop?) && Unlocked(o) && OnTrack(o, op, p, now, panics, a, f, scope)
    requires Entering(f)
    ensures Unblocked(a, f) && Follows(o, op, p, now, panics, f, EntryStep(a, f, p, false, scope))
  {
  }

  lemma LoadFollows(o: Attempt, op: Op, p: Act, now: nat, panics: bool, a: Attempt, f: Frame, scope: bool)
    requires (op.Transition? || op.FinalDrop?) && OnTrack(o, op, p, now, panics, a, f, scope)
    requires f.pc in {LoadState, LoadDisarmed}
    ensures Follows(o, op, p, now, panics, f, LockedStep(a, f, p, false, scope, now))
  {
  }

  lemma StoreFollows(o: Attempt, op: Op, p: Act, now: nat, panics: bool, a: Attempt, f: Frame, scope: bool)
    requires (op.Transition? || op.FinalDrop?) && OnTrack(o, op, p, now, panics, a, f, scope)
    requires f.pc in {StoreState, ReleaseLast} && Unlocked(o)
    ensures Follows(o, op, p, now, panics, f, LockedStep(a, f, p, false, scope, now))
  {
  }

  lemma LockedFollows(o: Attempt, op: Op, p: Act, now: nat, panics: bool, a: Attempt, f: Frame, scope: bool)
    requires (op.Transition? || op.FinalDrop?) && Unlocked(o) && OnTrack(o, op, p, now, panics, a, f, scope)
    requires Locking(f)
    ensures Unblocked(a, f) && Follows(o, op, p, now, panics, f, LockedStep(a, f, p, false, scope, now))
  {
    if f.pc in {LoadState, LoadDisarmed} { LoadFollows(o, op, p, now, panics, a, f, scope); }
    else if f.pc in {StoreState, ReleaseLast} { StoreFollows(o, op, p, now, panics, a, f, scope); }
  }

  lemma InvokeFollows(o: Attempt, op: Op, p: Act, now: nat, panics: bool, a: Attempt, f: Frame, scope: bool)
    requires (op.Transition? || op.FinalDrop?) && OnTrack(o, op, p, now, panics, a, f, scope) && f.pc == Invoke
    ensures Follows(o, op, p, now, panics, f, NotifyStep(a, f, false, scope, panics))
  {
  }

  lemma CallbackFollows(o: Attempt, op: Op, p: Act, now: nat, panics: bool, a: Attempt, f: Frame, scope: bool)
    requires (op.Transition? || op.FinalDrop?) && OnTrack(o, op, p, now, panics, a, f, scope) && f.pc == InCallback
    ensures Follows(o, op, p, now, panics, f, NotifyStep(a, f, false, scope, panics))
  {
  }

  lemma NotifyFollows(o: Attempt, op: Op, p: Act, now: nat, panics: bool, a: Attempt, f: Frame, scope: bool)
    requires (op.Transition? || op.FinalDrop?) && Unlocked(o) && OnTrack(o, op, p, now, panics, a, f, scope)
    requires Notifying(f)
    ensures Follows(o, op, p, now, panics, f, NotifyStep(a, f, false, scope, panics))
  {
    if f.pc == Invoke { InvokeFollows(o, op, p, now, panics, a, f, scope); }
    else if f.pc == InCallback { CallbackFollows(o, op, p, now, panics, a, f, scope); }
    else if f.pc == EnterGuard { GuardFollows(o, op, p, now, panics, a, f, scope); }
    else { EnterFollows(o, op, p, now, panics, a, f, scope); }
  }

  lemma EnterFollows(o: Attempt, op: Op, p: Act, now: nat, panics: bool, a: Attempt, f: Frame, scope: bool)
    requires (op.Transition? || op.FinalDrop?) && OnTrack(o, op, p, now, panics, a, f, scope)
    requires f.pc in {NotifyCheck, EnterScope}
    ensures Follows(o, op, p, now, panics, f, NotifyStep(a, f, false, scope, panics))
  {
  }

  lemma GuardFollows(o: Attempt, op: Op, p: Act, now: nat, panics: bool, a: Attempt, f: Frame, scope: bool)
    requires (op.Transition? || op.FinalDrop?) && OnTrack(o, op, p, now, panics, a, f, scope) && f.pc == EnterGuard
    ensures Follows(o, op, p, now, panics, f, NotifyStep(a, f, false, scope, panics))
  {
  }

  lemma LeaveFollows(o: Attempt, op: Op, p: Act, now: nat, panics: bool, a: Attempt, f: Frame, scope: bool)
    requires (op.Transition? || op.FinalDrop?) && Unlocked(o) && OnTrack(o, op, p, now, panics, a, f, scope)
    requires Leaving(f)
    ensures Follows(o, op, p, now, panics, f, LeaveStep(a, f, scope))
  {
    if f.pc == ReleaseDispatch { ReleaseFollows(o, op, p, now, panics, a, f, scope); }
    else if f.pc == MarkFailed { MarkFollows(o, op, p, now, panics, a, f, scope); }
    else if f.pc == LeaveGuard { UnguardFollows(o, op, p, now, panics, a, f, scope); }
    else { UnscopeFollows(o, op, p, now, panics, a, f, scope); }
  }

  lemma MarkFollows(o: Attempt, op: Op, p: Act, now: nat, panics: bool, a: Attempt, f: Frame, scope: bool)
    requires (op.Transition? || op.FinalDrop?) && OnTrack(o, op, p, now, panics, a, f, scope) && f.pc == MarkFailed
    ensures Follows(o, op, p, now, panics, f, LeaveStep(a, f, scope))
  {
  }

  lemma UnguardFollows(o: Attempt, op: Op, p: Act, now: nat, panics: bool, a: Attempt, f: Frame, scope: bool)
    requires (op.Transition? || op.FinalDrop?) && OnTrack(o, op, p, now, panics, a, f, scope)
    requires Unlocked(o) && f.pc == LeaveGuard
    ensures Follows(o, op, p, now, panics, f, LeaveStep(a, f, scope))
  {
  }

  lemma UnscopeFollows(o: Attempt, op: Op, p: Act, now: nat, panics: bool, a: Attempt, f: Frame, scope: bool)
    requires (op.Transition? || op.FinalDrop?) && OnTrack(o, op, p, now, panics, a, f, scope) && f.pc == LeaveScope
    ensures Follows(o, op, p, now, panics, f, LeaveStep(a, f, scope))
  {
  }

  lemma ReleaseFollows(o: Attempt, op: Op, p: Act, now: nat, panics: bool, a: Attempt, f: Frame, scope: bool)
    requires (op.Transition? || op.FinalDrop?) && OnTrack(o, op, p, now, panics, a, f, scope)
    requires Unlocked(o) && f.pc == ReleaseDispatch
    ensures Follows(o, op, p, now, panics, f, LeaveStep(a, f, scope))
  {
  }

  lemma MicroFollows(o: Attempt, op: Op, p: Act, now: nat, panics: bool, failed: bool, a: Attempt, f: Frame,
                     scope: bool)
    requires Unlocked(o) && OnTrack(o, op, p, now, panics, a, f, scope) && (failed <==> Noted(f))
    ensures Unblocked(a, f) && Follows(o, op, p, now, panics, f, Micro(a, f, p, failed, scope, now, panics))
  {
    if op.Disarm? { DisarmFollows(o, p, now, panics, a, f, scope); }
    else if op.Orthogonal? { OrthogonalFollows(o, p, now, panics, failed, a, f, scope); }
    else if Entering(f) { EntryFollows(o, op, p, now, panics, a, f, scope); }
    else if Locking(f) { LockedFollows(o, op, p, now, panics, a, f, scope); }
    else if Notifying(f) { NotifyFollows(o, op, p, now, panics, a, f, scope); }
    else { LeaveFollows(o, op, p, now, panics, a, f, scope); }
  }

  // ---------------------------------------------------------------------------------------------
  // Schedules of one call alone
  // ---------------------------------------------------------------------------------------------

  lemma {:induction false} ExecFirst(s: Sys, action: Action, run: seq<Action>)
    requires Enabled(s, action)
    ensures Exec(s, [action] + run) == Exec(Apply(s, action), run)
  {
    var all := [action] + run;
    if run == [] {
      assert all == [action] && all[..0] == [];
      assert Exec(s, all[..|all| - 1]) == Some(s);
    } else {
      assert all[..|all| - 1] == [action] + run[..|run| - 1];
      ExecFirst(s, action, run[..|run| - 1]);
    }
  }

  /** All instructions of one call, whose callback, if it makes one, panics or does not. */
  predicate OnlyAdvances(run: seq<Action>, p: Act, panics: bool) {
    forall i :: 0 <= i < |run| ==> run[i] == Advance(p, panics)
  }

  function Poisoned(s: Sys, o: Attempt, op: Op, panics: bool): set<nat> {
    if panics && CallsBack(o, op) then s.failed + {o.handle} else s.failed
  }

  /** The state in which only the attempt, the call of `p` and perhaps the handle differ: the call is over. */
  function Settle(s: Sys, p: Act, id: nat, o: Attempt, op: Op, panics: bool): Sys {
    s.(attempts := s.attempts[id := Finished(o, op, s.now, panics)], frames := s.frames - {p},
       scope := s.scope - {p.thread}, failed := Poisoned(s, o, op, panics))
  }

  /** The call of `p` on attempt `id` is on track in this state. */
  predicate Underway(s: Sys, p: Act, id: nat, o: Attempt, op: Op, panics: bool) {
    && !p.nested && p in s.frames && Act(p.thread, true) !in s.frames
    && s.frames[p].attempt == id && id in s.attempts
    && (o.handle in s.failed <==> Noted(s.frames[p]))
    && OnTrack(o, op, p, s.now, panics, s.attempts[id], s.frames[p], p.thread in s.scope)
  }

  lemma HandleStays(o: Attempt, op: Op, p: Act, now: nat, panics: bool, f: Frame, e: Effect)
    requires Follows(o, op, p, now, panics, f, e)
    ensures e.a.handle == o.handle
  {
  }

  /** Replacing one call by what comes next. */
  lemma ReplaceFollows(s: Sys, p: Act, id: nat, o: Attempt, op: Op, panics: bool, e: Effect)
    requires Underway(s, p, id, o, op, panics) && Follows(o, op, p, s.now, panics, s.frames[p], e)
    ensures var t := Replace(s, p, id, e);
            && (p in t.frames <==> e.f.Some?)
            && (p in t.frames ==> Underway(t, p, id, o, op, panics) && t.frames[p] == e.f.value)
            && (p !in t.frames ==> t == Settle(s, p, id, o, op, panics))
  {
    HandleStays(o, op, p, s.now, panics, s.frames[p], e);
  }

  lemma SettlesAlike(s: Sys, p: Act, id: nat, o: Attempt, op: Op, panics: bool, e: Effect)
    requires Underway(s, p, id, o, op, panics) && Follows(o, op, p, s.now, panics, s.frames[p], e) && e.f.Some?
    ensures Settle(Replace(s, p, id, e), p, id, o, op, panics) == Settle(s, p, id, o, op, panics)
  {
    var t, b := Replace(s, p, id, e), Finished(o, op, s.now, panics);
    HandleStays(o, op, p, s.now, panics, s.frames[p], e);
    assert t.attempts[id := b] == s.attempts[id := b];
    assert t.frames - {p} == s.frames - {p};
    assert t.scope - {p.thread} == s.scope - {p.thread};
    MarkedOnlyInPanic(o, op, p, s.now, panics, s.attempts[id], s.frames[p], p.thread in s.scope);
    assert Poisoned(t, o, op, panics) == Poisoned(s, o, op, panics);
  }

  lemma MarkedOnlyInPanic(o: Attempt, op: Op, p: Act, now: nat, panics: bool, a: Attempt, f: Frame, scope: bool)
    requires OnTrack(o, op, p, now, panics, a, f, scope)
    ensures f.pc == MarkFailed ==> panics && CallsBack(o, op)
  {
  }

  lemma CanFollow(s: Sys, p: Act, id: nat, o: Attempt, op: Op, panics: bool) returns (e: Effect)
    requires Unlocked(o) && Underway(s, p, id, o, op, panics)
    ensures CanAdvance(s, p) && AdvanceCall(s, p, panics) == Replace(s, p, id, e)
    ensures Follows(o, op, p, s.now, panics, s.frames[p], e) && Progress(s.frames[p], e)
  {
    var a, f, failed, scope := s.attempts[id], s.frames[p], o.handle in s.failed, p.thread in s.scope;
    MicroFollows(o, op, p, s.now, panics, failed, a, f, scope);
    MicroProgress(a, f, p, failed, scope, s.now, panics);
    e := Micro(a, f, p, failed, scope, s.now, panics);
  }

  lemma AdvanceFollows(s: Sys, p: Act, id: nat, o: Attempt, op: Op, panics: bool)
    requires Unlocked(o) && Underway(s, p, id, o, op, panics)
    ensures CanAdvance(s, p)
    ensures var t := AdvanceCall(s, p, panics);
            if p in t.frames then
              && Underway(t, p, id, o, op, panics) && Remaining(t.frames[p].pc) < Remaining(s.frames[p].pc)
              && Settle(t, p, id, o, op, panics) == Settle(s, p, id, o, op, panics)
            else t == Settle(s, p, id, o, op, panics)
  {
    var e := CanFollow(s, p, id, o, op, panics);
    ReplaceFollows(s, p, id, o, op, panics, e);
    if e.f.Some? { SettlesAlike(s, p, id, o, op, panics, e); }
  }

  lemma {:induction false} CompletesAlone(s: Sys, p: Act, id: nat, o: Attempt, op: Op, panics: bool)
    returns (run: seq<Action>)
    requires Unlocked(o) && Underway(s, p, id, o, op, panics)
    ensures OnlyAdvances(run, p, panics) && Exec(s, run) == Some(Settle(s, p, id, o, op, panics))
    decreases Remaining(s.frames[p].pc)
  {
    AdvanceFollows(s, p, id, o, op, panics);
    var t := Apply(s, Advance(p, panics));
    var rest := [];
    if p in t.frames {
      rest := CompletesAlone(t, p, id, o, op, panics);
    }
    ExecFirst(s, Advance(p, panics), rest);
    run := [Advance(p, panics)] + rest;
  }

  lemma RestIsUnlocked(s: Sys, id: nat)
    requires Inv(s) && id in s.attempts && AtRest(s, id)
    ensures Unlocked(s.attempts[id]) && s.attempts[id].lastAt <= s.now
    ensures s.attempts[id].handle !in s.failed ==> s.attempts[id].events == s.attempts[id].history
  {
    assert LocksInv(s, id);
  }

  lemma IdleThread(s: Sys, thread: nat)
    requires Inv(s) && Act(thread, false) !in s.frames
    ensures thread !in s.scope && Act(thread, true) !in s.frames
  {
  }

  lemma BackWhereItBegan(s: Sys, p: Act, id: nat, u: Sys, o: Attempt, op: Op, panics: bool)
    requires p !in s.frames && p.thread !in s.scope && id in s.attempts
    requires p in u.frames && u.attempts.Keys == s.attempts.Keys
    requires u == s.(attempts := s.attempts[id := u.attempts[id]], frames := s.frames[p := u.frames[p]])
    ensures Settle(u, p, id, o, op, panics) ==
            s.(attempts := s.attempts[id := Finished(o, op, s.now, panics)], failed := Poisoned(s, o, op, panics))
  {
    assert u.frames - {p} == s.frames;
    assert u.scope - {p.thread} == s.scope;
    var b := Finished(o, op, s.now, panics);
    assert u.attempts[id := b] == s.attempts[id := b];
  }

  lemma BeginsOnTrack(s: Sys, p: Act, id: nat, token: nat, op: Op, panics: bool)
    requires id in s.attempts && s.attempts[id].handle !in s.failed && !op.FinalDrop?
    requires !p.nested && p.thread !in s.scope && Act(p.thread, true) !in s.frames
    ensures var u := Apply(s, Begin(p, id, token, op));
            && Underway(u, p, id, s.attempts[id], op, panics)
            && u == s.(frames := s.frames[p := u.frames[p]])
  {
  }

  /** A call that an idle thread begins on an attempt at rest with an unpoisoned handle, and carries out alone. */
  lemma CallAlone(s: Sys, thread: nat, id: nat, token: nat, op: Op, panics: bool) returns (run: seq<Action>)
    requires Inv(s) && id in s.attempts && AtRest(s, id) && s.attempts[id].handle !in s.failed
    requires Act(thread, false) !in s.frames && token in s.attempts[id].tokens && !op.FinalDrop?
    ensures OnlyAdvances(run, Act(thread, false), panics)
    ensures Exec(s, [Begin(Act(thread, false), id, token, op)] + run) ==
            Some(s.(attempts := s.attempts[id := Finished(s.attempts[id], op, s.now, panics)],
                    failed := Poisoned(s, s.attempts[id], op, panics)))
  {
    var p, a := Act(thread, false), s.attempts[id];
    RestIsUnlocked(s, id);
    IdleThread(s, thread);
    var u := Apply(s, Begin(p, id, token, op));
    BeginsOnTrack(s, p, id, token, op, panics);
    assert s.attempts[id := a] == s.attempts;
    run := CompletesAlone(u, p, id, a, op, panics);
    ExecFirst(s, Begin(p, id, token, op), run);
    BackWhereItBegan(s, p, id, u, a, op, panics);
  }

  // ---------------------------------------------------------------------------------------------
  // What the calls achieve
  // ---------------------------------------------------------------------------------------------

  /** What an undisturbed transition leaves behind. */
  predicate LeftBehind(a: Attempt, op: Op, now: nat, panics: bool, b: Attempt)
    requires op.Transition? && a.lastAt <= now
  {
    var legal := Legal(a, op);
    && b.replies == a.replies + [Return(op,
                                        if panics then Failed(ObserverPanicked)
                                        else if legal then Done else Failed(InvalidTransition),
                                        a.state, if legal then Some(|a.history|) else None)]
    && b.state == (if legal then op.next else a.state)
    && b.history == a.history + (if legal then [Event(a.state, op.next, op.outcome, now - a.lastAt)] else [])
    && b.events == b.history
    && b.violations == a.violations + (if legal then [] else [(a.state, op.next)])
    && Unlocked(b) && b.tokens == a.tokens && b.handle == a.handle && b.disarmed == a.disarmed
  }

  /**
   On an attempt at rest with an unpoisoned handle, a transition that an idle thread carries out
   undisturbed returns success if and only if it is legal and the observer does not panic. If it is
   legal it has made exactly its write and all writes have been handed over; otherwise nothing is
   written and the violation was handed over. If the observer panics, the call says so and the
   handle is poisoned.
   */
  lemma UndisturbedTransition(s: Sys, thread: nat, id: nat, token: nat, op: Op, panics: bool)
    returns (run: seq<Action>, b: Attempt)
    requires Inv(s) && id in s.attempts && AtRest(s, id) && s.attempts[id].handle !in s.failed
    requires Act(thread, false) !in s.frames && token in s.attempts[id].tokens && op.Transition?
    ensures OnlyAdvances(run, Act(thread, false), panics)
    ensures Exec(s, [Begin(Act(thread, false), id, token, op)] + run) ==
            Some(s.(attempts := s.attempts[id := b],
                    failed := if panics then s.failed + {s.attempts[id].handle} else s.failed))
    ensures s.attempts[id].lastAt <= s.now && LeftBehind(s.attempts[id], op, s.now, panics, b)
  {
    RestIsUnlocked(s, id);
    run := CallAlone(s, thread, id, token, op, panics);
    b := Finished(s.attempts[id], op, s.now, panics);
    FinishedLeaves(s.attempts[id], op, s.now, panics);
  }

  lemma FinishedLeaves(a: Attempt, op: Op, now: nat, panics: bool)
    requires op.Transition? && Unlocked(a) && a.events == a.history && a.lastAt <= now
    ensures LeftBehind(a, op, now, panics, Finished(a, op, now, panics))
  {
  }

  /** Likewise a disarm returns true, and disarms the attempt, if and only if it has not been accepted. */
  lemma UndisturbedDisarm(s: Sys, thread: nat, id: nat, token: nat) returns (run: seq<Action>, b: Attempt)
    requires Inv(s) && id in s.attempts && AtRest(s, id) && s.attempts[id].handle !in s.failed
    requires Act(thread, false) !in s.frames && token in s.attempts[id].tokens
    ensures OnlyAdvances(run, Act(thread, false), false)
    ensures Exec(s, [Begin(Act(thread, false), id, token, Disarm)] + run) == Some(s.(attempts := s.attempts[id := b]))
    ensures var a := s.attempts[id];
            var offered := a.state == Offered;
            b == a.(disarmed := a.disarmed || offered,
                    replies := a.replies + [Return(Disarm, Disarmed(offered), a.state, None)])
  {
    run := CallAlone(s, thread, id, token, Disarm, false);
    b := Finished(s.attempts[id], Disarm, s.now, false);
  }

  /** An orthogonal call makes its callback; if that panics, the call says so and the handle is poisoned. */
  lemma UndisturbedOrthogonal(s: Sys, thread: nat, id: nat, token: nat, panics: bool)
    returns (run: seq<Action>, b: Attempt)
    requires Inv(s) && id in s.attempts && AtRest(s, id) && s.attempts[id].handle !in s.failed
    requires Act(thread, false) !in s.frames && token in s.attempts[id].tokens
    ensures OnlyAdvances(run, Act(thread, false), panics)
    ensures Exec(s, [Begin(Act(thread, false), id, token, Orthogonal)] + run) ==
            Some(s.(attempts := s.attempts[id := b],
                    failed := if panics then s.failed + {s.attempts[id].handle} else s.failed))
    ensures var a := s.attempts[id];
            var result := if panics then Failed(ObserverPanicked) else Done;
            b == a.(notices := a.notices + 1, replies := a.replies + [Return(Orthogonal, result, Offered, None)])
  {
    run := CallAlone(s, thread, id, token, Orthogonal, panics);
    b := Finished(s.attempts[id], Orthogonal, s.now, panics);
  }

  /** What the drop of the last token leaves behind. */
  predicate Retired(a: Attempt, now: nat, panics: bool, b: Attempt)
    requires a.lastAt <= now
  {
    var abandons := !Settled(a.state);
    && b.replies == a.replies + [Return(FinalDrop, if panics && abandons then Failed(ObserverPanicked) else Done,
                                        a.state, if abandons then Some(|a.history|) else None)]
    && b.state == (if abandons then Abandoned else a.state)
    && b.history == a.history + (if abandons then [Event(a.state, Abandoned, None, now - a.lastAt)] else [])
    && b.events == b.history && b.violations == a.violations
    && b.tokens == {} && b.finals == 1 && b.handle == a.handle && Unlocked(b)
  }

  /**
   The drop of the last token abandons an accepted attempt that has not ended, and hands that over; a
   panic of the observer poisons the handle. On any other attempt it writes nothing and calls nobody.
   */
  lemma UndisturbedFinalDrop(s: Sys, thread: nat, id: nat, token: nat, panics: bool)
    returns (run: seq<Action>, b: Attempt)
    requires Inv(s) && id in s.attempts && AtRest(s, id) && s.attempts[id].handle !in s.failed
    requires Act(thread, false) !in s.frames && s.attempts[id].tokens == {token}
    ensures OnlyAdvances(run, Act(thread, false), panics)
    ensures Exec(s, [DropToken(Act(thread, false), id, token)] + run) ==
            Some(s.(attempts := s.attempts[id := b],
                    failed := if panics && !Settled(s.attempts[id].state) then s.failed + {s.attempts[id].handle}
                              else s.failed))
    ensures s.attempts[id].lastAt <= s.now && Retired(s.attempts[id], s.now, panics, b)
  {
    var p, a := Act(thread, false), s.attempts[id];
    var o := Drop(a, p, token);
    RestIsUnlocked(s, id);
    IdleThread(s, thread);
    assert |a.tokens| == 1;
    var u := Apply(s, DropToken(p, id, token));
    assert Underway(u, p, id, o, FinalDrop, panics);
    run := CompletesAlone(u, p, id, o, FinalDrop, panics);
    assert Enabled(s, DropToken(p, id, token));
    ExecFirst(s, DropToken(p, id, token), run);
    BackWhereItBegan(s, p, id, u, o, FinalDrop, panics);
    b := Finished(o, FinalDrop, s.now, panics);
    FinishedRetires(a, p, token, s.now, panics);
  }

  lemma FinishedRetires(a: Attempt, p: Act, token: nat, now: nat, panics: bool)
    requires Unlocked(a) && a.events == a.history && a.lastAt <= now
    requires a.tokens == {token} && a.tokenCount == 1 && a.finals == 0
    ensures Retired(a, now, panics, Finished(Drop(a, p, token), FinalDrop, now, panics))
  {
  }

  // ---------------------------------------------------------------------------------------------
  // Reentrancy
  // ---------------------------------------------------------------------------------------------

  predicate Reentered(r: Return) {
    (r.op.Transition? || r.op.Disarm?) && r.result == Failed(ReentrantObserver)
  }

  /** The thread of `p` is in a callback of its own, or a call on the attempt is between entering and leaving one. */
  ghost predicate InsideCallback(s: Sys, p: Act, id: nat) {
    || (Act(p.thread, false) in s.frames && s.frames[Act(p.thread, false)].pc == InCallback)
    || exists q :: q in s.frames && s.frames[q].attempt == id && HoldsGuard(s.frames[q])
  }

  /** One instruction adds at most one answer, and a reentrant one only under the callback flag. */
  predicate TurnsAway(a: Attempt, b: Attempt) {
    && |b.replies| <= |a.replies| + 1
    && forall k :: |a.replies| <= k < |b.replies| && Reentered(b.replies[k]) ==> a.callbackActive
  }

  lemma EntryTurnsAway(a: Attempt, f: Frame, p: Act, failed: bool, scope: bool)
    requires Entering(f)
    ensures TurnsAway(a, EntryStep(a, f, p, failed, scope).a)
  {
  }

  lemma LockedTurnsAway(a: Attempt, f: Frame, p: Act, failed: bool, scope: bool, now: nat)
    requires Locking(f) && Answer(f, a)
    ensures TurnsAway(a, LockedStep(a, f, p, failed, scope, now).a)
  {
  }

  lemma LeaveTurnsAway(a: Attempt, f: Frame, failed: bool, scope: bool)
    requires Leaving(f) && PcOfOp(f) && Blame(f, failed)
    ensures TurnsAway(a, LeaveStep(a, f, scope).a)
  {
  }

  lemma MicroTurnsAway(a: Attempt, f: Frame, p: Act, failed: bool, scope: bool, now: nat, panics: bool)
    requires FrameInv(f, p, a, failed)
    ensures TurnsAway(a, Micro(a, f, p, failed, scope, now, panics).a)
  {
    if Entering(f) { EntryTurnsAway(a, f, p, failed, scope); }
    else if Locking(f) { LockedTurnsAway(a, f, p, failed, scope, now); }
    else if Notifying(f) {}
    else { LeaveTurnsAway(a, f, failed, scope); }
  }

  /** The action answered the call of `who` on the attempt as reentrant, from inside a callback. */
  ghost predicate TurnedAway(s: Sys, action: Action, id: nat) {
    (action.Begin? || action.Advance?) && InsideCallback(s, action.who, id)
  }

  lemma ReplaceTurnsAway(s: Sys, p: Act, e: Effect, id: nat, k: nat)
    requires Inv(s) && p in s.frames && s.frames[p].attempt in s.attempts && id in s.attempts
    requires TurnsAway(s.attempts[s.frames[p].attempt], e.a)
    ensures var replies := Replace(s, p, s.frames[p].attempt, e).attempts[id].replies;
            && |replies| <= |s.attempts[id].replies| + 1
            && (|s.attempts[id].replies| <= k < |replies| && Reentered(replies[k]) ==> InsideCallback(s, p, id))
  {
    assert LocksInv(s, id);
  }

  lemma AdvanceTurnsAway(s: Sys, p: Act, panics: bool, id: nat, k: nat)
    requires Inv(s) && CanAdvance(s, p) && id in s.attempts
    ensures var replies := AdvanceCall(s, p, panics).attempts[id].replies;
            && |replies| <= |s.attempts[id].replies| + 1
            && (|s.attempts[id].replies| <= k < |replies| && Reentered(replies[k]) ==> InsideCallback(s, p, id))
  {
    assert CallInv(s, p);
    var a := s.attempts[s.frames[p].attempt];
    MicroTurnsAway(a, s.frames[p], p, a.handle in s.failed, p.thread in s.scope, s.now, panics);
    ReplaceTurnsAway(s, p, Micro(a, s.frames[p], p, a.handle in s.failed, p.thread in s.scope, s.now, panics), id, k);
  }

  lemma BeginTurnsAway(s: Sys, p: Act, id: nat, token: nat, op: Op)
    requires Inv(s) && CanEnter(s, p) && p.thread in s.scope
    ensures InsideCallback(s, p, id)
  {
  }

  lemma StepTurnsAway(s: Sys, action: Action, id: nat, k: nat)
    requires Inv(s) && Enabled(s, action) && id in s.attempts && id in Apply(s, action).attempts
    requires |s.attempts[id].replies| <= k < |Apply(s, action).attempts[id].replies|
    requires Reentered(Apply(s, action).attempts[id].replies[k])
    ensures TurnedAway(s, action, id)
  {
    match action
    case Advance(p, panics) => AdvanceTurnsAway(s, p, panics, id, k);
    case Begin(p, _, token, op) => BeginTurnsAway(s, p, id, token, op);
    case Create(_, _, _) =>
    case CloneToken(_, _, _) =>
    case DropToken(_, _, _) =>
    case Tick(_) =>
  }

  /** Step `n` of the run gave answer `k` of the attempt, from inside a callback. */
  ghost predicate DecidedInside(run: seq<Action>, n: int, id: nat, k: nat) {
    && 0 <= n < |run| && Exec(INIT, run[..n]).Some?
    && var s := Exec(INIT, run[..n]).value;
       id in s.attempts && |s.attempts[id].replies| == k && TurnedAway(s, run[n], id)
  }

  /**
   In every run, a transition or disarm is answered as reentrant only if, when that answer was
   given, its own thread was inside a callback or a callback of its attempt was in progress.
   */
  lemma {:induction false} ReentrantOnlyInsideCallbacks(run: seq<Action>, id: nat, k: nat)
    requires Exec(INIT, run).Some? && id in Exec(INIT, run).value.attempts
    requires k < |Exec(INIT, run).value.attempts[id].replies|
    requires Reentered(Exec(INIT, run).value.attempts[id].replies[k])
    ensures exists n :: DecidedInside(run, n, id, k)
  {
    if run == [] {
    } else {
      var front, action := run[..|run| - 1], run[|run| - 1];
      var s := Exec(INIT, front).value;
      assert id in s.attempts;
      RunKeepsInv(INIT, front);
      StepIsLater(s, action, id);
      if k < |s.attempts[id].replies| {
        ReentrantOnlyInsideCallbacks(front, id, k);
        var n :| DecidedInside(front, n, id, k);
        assert front[..n] == run[..n];
        assert DecidedInside(run, n, id, k);
      } else {
        OneReplyAtATime(s, action, id);
        StepTurnsAway(s, action, id, k);
        assert DecidedInside(run, |run| - 1, id, k);
      }
    }
  }

  lemma OneReplyAtATime(s: Sys, action: Action, id: nat)
    requires Inv(s) && Enabled(s, action) && id in s.attempts
    ensures |Apply(s, action).attempts[id].replies| <= |s.attempts[id].replies| + 1
  {
    if action.Advance? { AdvanceTurnsAway(s, action.who, action.panics, id, 0); }
    else { OtherReplies(s, action, id); }
  }

  lemma OtherReplies(s: Sys, action: Action, id: nat)
    requires Enabled(s, action) && !action.Advance? && id in s.attempts
    ensures |Apply(s, action).attempts[id].replies| <= |s.attempts[id].replies| + 1
  {
    match action
    case Create(_, _, _) =>
    case CloneToken(_, _, _) =>
    case DropToken(_, _, _) =>
    case Begin(_, _, _, _) =>
    case Tick(_) =>
  }

  /** On an unpoisoned handle a transition succeeds unless it is illegal or answered as reentrant. */
  lemma TransitionAnswers(s: Sys, id: nat, k: nat)
    requires Reachable(s) && id in s.attempts && k < |s.attempts[id].replies|
    requires s.attempts[id].replies[k].op.Transition? && s.attempts[id].handle !in s.failed
    ensures var r := s.attempts[id].replies[k];
            || r.result == Done
            || (r.result == Failed(InvalidTransition) && Refused(r.op, r.seen, s.attempts[id]))
            || Reentered(r)
  {
    ReachableInv(s);
    var r := s.attempts[id].replies[k];
    assert ReturnTrue(r, s.attempts[id]) && Blames(r, false);
    match r.result
    case Done =>
    case Disarmed(_) =>
    case Failed(reason) =>
      assert reason == InvalidTransition || reason == ReentrantObserver;
  }
}
