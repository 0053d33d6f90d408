/**
 The lifecycle protocol of one observed storage attempt, as a concurrent state machine.

 Any number of attempts, observer handles and threads run together. Every atomic load or store and
 every lock operation of `BaselineAttempt` is one step, so a run is an arbitrary interleaving.
 A callback is user code: while it runs, its thread may enter the API again, which is what the
 second activation of a thread stands for.
 */
module AttemptMachine {
  import opened Options

  datatype AttemptState =
    | Offered
    | ChannelQueued
    | BatchQueued
    | WaitingGate
    | Running
    | ExecutionFinished
    | ShutdownRejectedAfterAccept
    | Abandoned

  predicate Terminal(s: AttemptState) {
    s in {ExecutionFinished, ShutdownRejectedAfterAccept, Abandoned}
  }

  predicate Permits(s: AttemptState, next: AttemptState) {
    match s
    case Offered => next == ChannelQueued
    case ChannelQueued => next in {BatchQueued, WaitingGate, ShutdownRejectedAfterAccept}
    case BatchQueued => next in {WaitingGate, ShutdownRejectedAfterAccept}
    case WaitingGate => next in {Running, ShutdownRejectedAfterAccept}
    case Running => next == ExecutionFinished
    case _ => false
  }

  datatype Outcome = Success | CommandError | InternalFailure

  datatype Reason = InvalidTransition | ObserverPanicked | AttemptPoisoned | ReentrantObserver

  /** A state change, as written and as reported to the observer. */
  datatype Event = Event(previous: AttemptState, next: AttemptState, outcome: Option<Outcome>, elapsed: nat)

  datatype Op =
    | Transition(next: AttemptState, outcome: Option<Outcome>)
    | Disarm
    | Orthogonal
    | FinalDrop

  datatype CallResult = Done | Disarmed(armed: bool) | Failed(reason: Reason)

  /** What a finished call returned, the state it had loaded, and the index of the write it made, if any. */
  datatype Return = Return(op: Op, result: CallResult, seen: AttemptState, wrote: Option<nat>)

  /** The next instruction of a call. */
  datatype Pc =
    | CheckActive
    | CheckFailed
    | AcquireDispatch
    | CheckFailedLocked
    | AcquireLast
    | RecheckFailed
    | LoadState
    | LoadDisarmed
    | StoreState
    | StoreDisarmed
    | ReleaseLast
    | NotifyCheck
    | EnterScope
    | EnterGuard
    | Invoke
    | InCallback
    | MarkFailed
    | LeaveGuard
    | LeaveScope
    | ReleaseDispatch

  /** An activation: a thread, either at top level or nested inside one of its own callbacks. */
  datatype Act = Act(thread: nat, nested: bool)

  /** A call in progress. `seen` is the state it loaded, `result` what it will return. */
  datatype Frame = Frame(op: Op, attempt: nat, token: nat, pc: Pc,
                         seen: AttemptState, wrote: Option<nat>, result: CallResult)

  /**
   The shared cell behind all tokens of one attempt. The fields after `lastAt` are history that the
   protocol never reads: all state writes, how many of them happened before the handle was
   poisoned, the events and violations handed to the observer, how often it was called back for
   anything else, what calls returned, how many drops were elected final, and which activation is
   running the final drop.
   */
  datatype Attempt = Attempt(
    handle: nat, state: AttemptState, disarmed: bool, tokenCount: nat, tokens: set<nat>,
    dispatch: Option<Act>, last: Option<Act>, callbackActive: bool, startedAt: nat, lastAt: nat,
    history: seq<Event>, clean: nat, events: seq<Event>, violations: seq<(AttemptState, AttemptState)>,
    notices: nat, replies: seq<Return>, finals: nat, closer: Option<Act>)

  /** `scope` holds the threads whose thread-local callback flag is set, `failed` the poisoned handles. */
  datatype Sys = Sys(attempts: map<nat, Attempt>, frames: map<Act, Frame>,
                     scope: set<nat>, failed: set<nat>, now: nat)

  const INIT := Sys(map[], map[], {}, {}, 0)

  datatype Action =
    | Create(id: nat, handle: nat, token: nat)
    | CloneToken(id: nat, token: nat, copy: nat)
    | DropToken(who: Act, id: nat, token: nat)
    | Begin(who: Act, id: nat, token: nat, op: Op)
    | Advance(who: Act, panics: bool)
    | Tick(duration: nat)

  // ---------------------------------------------------------------------------------------------
  // One instruction of one call
  // ---------------------------------------------------------------------------------------------

  /** The effect of one instruction on the acting call, its attempt, its thread flag and its handle. */
  datatype Effect = Effect(a: Attempt, f: Option<Frame>, scope: bool, poisons: bool)

  function Goto(a: Attempt, f: Frame, scope: bool, pc: Pc): Effect {
    Effect(a, Some(f.(pc := pc)), scope, false)
  }

  function Finish(a: Attempt, f: Frame, scope: bool): Effect {
    Effect(a.(replies := a.replies + [Return(f.op, f.result, f.seen, f.wrote)]), None, scope, false)
  }

  /** The transition is legal and carries an outcome exactly when it finishes execution. */
  predicate Accepts(seen: AttemptState, next: AttemptState, outcome: Option<Outcome>) {
    Permits(seen, next) && (next == ExecutionFinished <==> outcome.Some?)
  }

  function Write(a: Attempt, seen: AttemptState, next: AttemptState, outcome: Option<Outcome>,
                 failed: bool, now: nat): Attempt {
    var elapsed := if now < a.lastAt then 0 else now - a.lastAt;
    a.(state := next, lastAt := now,
       history := a.history + [Event(seen, next, outcome, elapsed)],
       clean := if failed then a.clean else |a.history| + 1)
  }

  predicate Entering(f: Frame) {
    f.pc in {CheckActive, CheckFailed, AcquireDispatch, CheckFailedLocked}
  }

  predicate Locking(f: Frame) {
    f.pc in {AcquireLast, RecheckFailed, LoadState, LoadDisarmed, StoreState, StoreDisarmed, ReleaseLast}
  }

  predicate Notifying(f: Frame) {
    f.pc in {NotifyCheck, EnterScope, EnterGuard, Invoke, InCallback}
  }

  predicate Leaving(f: Frame) {
    !Entering(f) && !Locking(f) && !Notifying(f)
  }

  /** The checks before the critical section, up to the re-check under the dispatch lock. */
  function EntryStep(a: Attempt, f: Frame, p: Act, failed: bool, scope: bool): Effect
    requires Entering(f)
  {
    match f.pc
    case CheckActive =>
      if a.callbackActive then Finish(a, f.(result := Failed(ReentrantObserver)), scope)
      else Goto(a, f, scope, CheckFailed)
    case CheckFailed =>
      if failed then Finish(a, f.(result := Failed(AttemptPoisoned)), scope)
      else
        Goto(a, f, scope,
             if f.op.Transition? then AcquireDispatch else if f.op.Disarm? then AcquireLast else EnterScope)
    case AcquireDispatch =>
      Goto(a.(dispatch := Some(p)), f, scope, if f.op.FinalDrop? then AcquireLast else CheckFailedLocked)
    case CheckFailedLocked =>
      if failed then Goto(a, f.(result := Failed(AttemptPoisoned)), scope, ReleaseDispatch)
      else Goto(a, f, scope, AcquireLast)
  }

  /** The critical section under the `last_transition` lock. */
  function LockedStep(a: Attempt, f: Frame, p: Act, failed: bool, scope: bool, now: nat): Effect
    requires Locking(f)
  {
    match f.pc
    case AcquireLast =>
      Goto(a.(last := Some(p)), f, scope, if f.op.Disarm? then RecheckFailed else LoadState)
    case RecheckFailed =>
      if failed then Goto(a, f.(result := Failed(AttemptPoisoned)), scope, ReleaseLast)
      else Goto(a, f, scope, LoadState)
    case LoadState =>
      var g := f.(seen := a.state);
      if f.op.Disarm? then
        if a.state != Offered then Goto(a, g.(result := Disarmed(false)), scope, ReleaseLast)
        else Goto(a, g, scope, StoreDisarmed)
      else if f.op.Transition? then
        Goto(a, g, scope,
             if a.state == Offered then LoadDisarmed
             else if Accepts(a.state, f.op.next, f.op.outcome) then StoreState
             else ReleaseLast)
      else
        Goto(a, g, scope, if a.state == Offered || Terminal(a.state) then ReleaseLast else StoreState)
    case LoadDisarmed =>
      Goto(a, f, scope,
           if f.op.Transition? && !a.disarmed && Accepts(f.seen, f.op.next, f.op.outcome) then StoreState
           else ReleaseLast)
    case StoreState =>
      var b := if f.op.Transition? then Write(a, f.seen, f.op.next, f.op.outcome, failed, now)
               else Write(a, f.seen, Abandoned, None, failed, now);
      Goto(b, f.(wrote := Some(|a.history|)), scope, ReleaseLast)
    case StoreDisarmed =>
      Goto(a.(disarmed := true), f.(result := Disarmed(true)), scope, ReleaseLast)
    case ReleaseLast =>
      var b := a.(last := None);
      if f.op.Disarm? then Finish(b, f, scope)
      else Goto(b, f, scope, if f.op.FinalDrop? && f.wrote.None? then ReleaseDispatch else NotifyCheck)
  }

  /** Handing the event to the observer. */
  function NotifyStep(a: Attempt, f: Frame, failed: bool, scope: bool, panics: bool): Effect
    requires Notifying(f)
  {
    match f.pc
    case NotifyCheck =>
      if failed then Goto(a, f.(result := Failed(AttemptPoisoned)), scope, ReleaseDispatch)
      else Goto(a, f, scope, EnterScope)
    case EnterScope =>
      if scope then
        Goto(a, f.(result := Failed(ReentrantObserver)), scope,
             if f.op.Transition? then ReleaseDispatch else MarkFailed)
      else
        Goto(a, f, true, if f.op.Orthogonal? then Invoke else EnterGuard)
    case EnterGuard =>
      Goto(a.(callbackActive := true), f, scope, Invoke)
    case Invoke =>
      var b := if f.op.Orthogonal? then a.(notices := a.notices + 1)
               else if f.op.Disarm? then a
               else if f.wrote.Some? && f.wrote.value < |a.history| then
                 a.(events := a.events + [a.history[f.wrote.value]])
               else if f.op.Transition? then a.(violations := a.violations + [(f.seen, f.op.next)])
               else a;
      Goto(b, f, scope, InCallback)
    case InCallback =>
      if panics then Goto(a, f.(result := Failed(ObserverPanicked)), scope, MarkFailed)
      else
        Goto(a, f.(result := if f.op.Transition? && f.wrote.None? then Failed(InvalidTransition) else Done),
             scope, if f.op.Orthogonal? then LeaveScope else LeaveGuard)
  }

  /** After the callback: poison the handle if it panicked, and undo guard, scope and lock. */
  function LeaveStep(a: Attempt, f: Frame, scope: bool): Effect
    requires Leaving(f)
  {
    match f.pc
    case MarkFailed =>
      if f.result == Failed(ObserverPanicked) then
        Goto(a, f, scope, if f.op.Orthogonal? then LeaveScope else LeaveGuard).(poisons := true)
      else if f.op.Orthogonal? then Finish(a, f, scope).(poisons := true)
      else Goto(a, f, scope, ReleaseDispatch).(poisons := true)
    case LeaveGuard =>
      Goto(a.(callbackActive := false), f, scope, LeaveScope)
    case LeaveScope =>
      if f.op.Orthogonal? then Finish(a, f, false) else Goto(a, f, false, ReleaseDispatch)
    case ReleaseDispatch =>
      Finish(a.(dispatch := None, closer := if f.op.FinalDrop? then None else a.closer), f, scope)
  }

  function Micro(a: Attempt, f: Frame, p: Act, failed: bool, scope: bool, now: nat, panics: bool): Effect {
    if Entering(f) then EntryStep(a, f, p, failed, scope)
    else if Locking(f) then LockedStep(a, f, p, failed, scope, now)
    else if Notifying(f) then NotifyStep(a, f, failed, scope, panics)
    else LeaveStep(a, f, scope)
  }

  // ---------------------------------------------------------------------------------------------
  // Steps of the whole system
  // ---------------------------------------------------------------------------------------------

  /** A thread enters the API when idle, or from inside a callback of its own. */
  predicate CanEnter(s: Sys, p: Act) {
    && p !in s.frames
    && if p.nested then
         Act(p.thread, false) in s.frames && s.frames[Act(p.thread, false)].pc == InCallback
       else
         Act(p.thread, true) !in s.frames
  }

  /** Locks block, and a thread leaves its callback only after its nested call returned. */
  predicate CanAdvance(s: Sys, p: Act) {
    && p in s.frames
    && s.frames[p].attempt in s.attempts
    && (s.frames[p].pc == AcquireDispatch ==> s.attempts[s.frames[p].attempt].dispatch.None?)
    && (s.frames[p].pc == AcquireLast ==> s.attempts[s.frames[p].attempt].last.None?)
    && (s.frames[p].pc == InCallback ==> Act(p.thread, true) !in s.frames)
  }

  /** Rust's ownership: a token is dropped only when nobody borrows it. */
  ghost predicate Borrowed(s: Sys, id: nat, token: nat) {
    exists q :: q in s.frames && s.frames[q].attempt == id && s.frames[q].token == token
  }

  ghost predicate Enabled(s: Sys, action: Action) {
    match action
    case Create(id, _, _) => id !in s.attempts
    case CloneToken(id, token, copy) =>
      id in s.attempts && token in s.attempts[id].tokens && copy !in s.attempts[id].tokens
    case DropToken(p, id, token) =>
      CanEnter(s, p) && id in s.attempts && token in s.attempts[id].tokens && !Borrowed(s, id, token)
    case Begin(p, id, token, op) =>
      CanEnter(s, p) && id in s.attempts && token in s.attempts[id].tokens && !op.FinalDrop?
    case Advance(p, _) => CanAdvance(s, p)
    case Tick(_) => true
  }

  function NewAttempt(handle: nat, token: nat, now: nat): Attempt {
    Attempt(handle, Offered, false, 1, {token}, None, None, false, now, now, [], 0, [], [], 0, [], 0, None)
  }

  function Clone(a: Attempt, copy: nat): Attempt {
    a.(tokenCount := a.tokenCount + 1, tokens := a.tokens + {copy})
  }

  /** The counter elects the drop that brings it from one to zero. */
  function Drop(a: Attempt, p: Act, token: nat): Attempt {
    var b := a.(tokenCount := if a.tokenCount == 0 then 0 else a.tokenCount - 1, tokens := a.tokens - {token});
    if a.tokenCount != 1 then b else b.(finals := a.finals + 1, closer := Some(p))
  }

  function Apply(s: Sys, action: Action): Sys {
    match action
    case Create(id, handle, token) => s.(attempts := s.attempts[id := NewAttempt(handle, token, s.now)])
    case CloneToken(id, _, copy) =>
      if id !in s.attempts then s else s.(attempts := s.attempts[id := Clone(s.attempts[id], copy)])
    case DropToken(p, id, token) =>
      if id !in s.attempts then s else
      var a := s.attempts[id];
      var t := s.(attempts := s.attempts[id := Drop(a, p, token)]);
      if a.tokenCount != 1 then t
      else t.(frames := s.frames[p := Frame(FinalDrop, id, token, AcquireDispatch, Offered, None, Done)])
    case Begin(p, id, token, op) =>
      if id !in s.attempts then s else
      var f := Frame(op, id, token, CheckActive, Offered, None, Failed(ReentrantObserver));
      if op.Orthogonal? then
        s.(frames := s.frames[p := f.(pc := if p.thread in s.scope then MarkFailed else CheckFailed)])
      else if p.thread in s.scope then
        s.(attempts := s.attempts[id := Finish(s.attempts[id], f, true).a])
      else s.(frames := s.frames[p := f])
    case Advance(p, panics) => AdvanceCall(s, p, panics)
    case Tick(duration) => s.(now := s.now + duration)
  }

  function Replace(s: Sys, p: Act, id: nat, e: Effect): Sys {
    Sys(s.attempts[id := e.a],
        if e.f.Some? then s.frames[p := e.f.value] else s.frames - {p},
        if e.scope then s.scope + {p.thread} else s.scope - {p.thread},
        if e.poisons then s.failed + {e.a.handle} else s.failed,
        s.now)
  }

  function AdvanceCall(s: Sys, p: Act, panics: bool): Sys {
    if p !in s.frames || s.frames[p].attempt !in s.attempts then s else
    var a := s.attempts[s.frames[p].attempt];
    Replace(s, p, s.frames[p].attempt,
            Micro(a, s.frames[p], p, a.handle in s.failed, p.thread in s.scope, s.now, panics))
  }

  /** The state a schedule leads to, or `None` when one of its actions is not enabled. */
  ghost function Exec(s: Sys, run: seq<Action>): Option<Sys> {
    if run == [] then Some(s)
    else
      var before := Exec(s, run[..|run| - 1]);
      var action := run[|run| - 1];
      if before.Some? && Enabled(before.value, action) then Some(Apply(before.value, action)) else None
  }
}
