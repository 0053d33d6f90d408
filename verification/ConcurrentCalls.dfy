/**
 Concurrent calls of one client while the storage answers nothing. Each step is one lock section of
 one call on the recovery manager or the breaker; the sections of different calls interleave freely.
 */
module ConcurrentCalls {
  import opened Naturals
  import opened Options
  import CB = CircuitBreaking
  import RT = RecoveryTracking
  import opened ClientRuns
  import opened StorageClient

  /** A call about to ask the breaker, sending with so many failed sends behind it, or on another path. */
  datatype Progress = AtBreaker | Sending(misses: nat) | Elsewhere

  /** `told` counts the verdicts given to the breaker, `impatient` those of calls without a single send. */
  datatype Group = Group(recovery: RT.Recovery, breaker: CB.Breaker, calls: map<nat, Progress>,
                         told: nat, impatient: nat)

  datatype Action =
    | Enter(call: nat)
    | Ask(call: nat, at: nat)
    | Miss(call: nat)
    | Tell(call: nat, at: nat)
    | Leave(call: nat)

  function Start(threshold: nat, delay: nat, tripAfter: nat, timeout: nat): Group {
    Group(RT.Fresh(threshold, delay), CB.Fresh(tripAfter, timeout), map[], 0, 0)
  }

  /** At most `width` calls are in progress at any time. */
  predicate Enabled(width: nat, s: Group, action: Action) {
    match action
    case Enter(call) => call !in s.calls && |s.calls| < width
    case Ask(call, _) => call in s.calls && s.calls[call].AtBreaker?
    case Miss(call) => call in s.calls && !s.calls[call].AtBreaker?
    case Tell(call, _) => call in s.calls && s.calls[call].Sending?
    case Leave(call) => call in s.calls && s.calls[call].Elsewhere?
  }

  function Goto(s: Group, call: nat, progress: Progress): Group {
    s.(calls := s.calls[call := progress])
  }

  function Apply(s: Group, action: Action): Group {
    match action
    case Enter(call) =>
      Goto(s, call, if s.recovery.state in {RT.Unavailable, RT.Degraded} then Elsewhere else AtBreaker)
    case Ask(call, at) =>
      Goto(s, call, if CB.Allowed(s.breaker, at) then Sending(0) else Elsewhere)
      .(breaker := CB.Step(s.breaker, CB.Allow(at)))
    case Miss(call) =>
      var t := s.(recovery := RT.Step(s.recovery, RT.Broke));
      if call in s.calls && s.calls[call].Sending? then Goto(t, call, Sending(s.calls[call].misses + 1)) else t
    case Tell(call, at) =>
      s.(calls := s.calls - {call}, breaker := CB.Step(s.breaker, CB.Failure(at)), told := s.told + 1,
         impatient := s.impatient + if call in s.calls && s.calls[call] == Sending(0) then 1 else 0)
    case Leave(call) => s.(calls := s.calls - {call})
  }

  function Exec(width: nat, s: Group, run: seq<Action>): Option<Group> {
    if run == [] then Some(s)
    else match Exec(width, s, run[..|run| - 1])
         case None => None
         case Some(t) => if Enabled(width, t, run[|run| - 1]) then Some(Apply(t, run[|run| - 1])) else None
  }

  // ---------------------------------------------------------------------------------------------
  // How far the breaker can get
  // ---------------------------------------------------------------------------------------------

  /** Calls on the normal path. */
  function Active(s: Group): set<nat> {
    set c | c in s.calls && !s.calls[c].Elsewhere?
  }

  /** Calls on the normal path that have recorded a failed send. */
  function Missed(s: Group): set<nat> {
    set c | c in s.calls && s.calls[c].Sending? && s.calls[c].misses > 0
  }

  predicate Breaker(s: Group) {
    && s.breaker.failures == s.told && s.impatient <= s.told
    && (s.breaker.state == CB.Closed <==> s.told < CB.Tripping(s.breaker.threshold))
  }

  /** While healthy, every patient verdict and every call that missed has its own recovery failure. */
  predicate Bounded(width: nat, s: Group) {
    && s.recovery.state != RT.Recovering && |s.calls| <= width
    && if s.recovery.state == RT.Healthy then
         s.told - s.impatient + |Missed(s)| <= s.recovery.failures < Patience(s.recovery.threshold)
       else
         s.told - s.impatient + |Active(s)| <= Patience(s.recovery.threshold) - 1 + width
  }

  lemma SubsetIsSmaller(a: set<nat>, b: set<nat>)
    requires a <= b
    ensures |a| <= |b|
  {
    assert b == a + (b - a);
  }

  lemma ActiveFit(width: nat, s: Group)
    requires |s.calls| <= width
    ensures |Active(s)| <= width
  {
    assert |s.calls.Keys| == |s.calls|;
    SubsetIsSmaller(Active(s), s.calls.Keys);
  }

  lemma EnterKeepsBound(width: nat, s: Group, call: nat)
    requires Bounded(width, s) && Enabled(width, s, Enter(call))
    ensures Bounded(width, Apply(s, Enter(call)))
  {
    var t := Apply(s, Enter(call));
    assert t.calls.Keys == s.calls.Keys + {call};
    assert Missed(t) == Missed(s);
    if s.recovery.state != RT.Healthy { assert Active(t) == Active(s); }
  }

  lemma AskKeepsBound(width: nat, s: Group, call: nat, at: nat)
    requires Bounded(width, s) && Enabled(width, s, Ask(call, at))
    ensures Bounded(width, Apply(s, Ask(call, at)))
  {
    var t := Apply(s, Ask(call, at));
    assert t.calls.Keys == s.calls.Keys;
    assert Missed(t) == Missed(s);
    SubsetIsSmaller(Active(t), Active(s));
  }

  lemma MissKeepsBound(width: nat, s: Group, call: nat)
    requires Bounded(width, s) && Enabled(width, s, Miss(call))
    ensures Bounded(width, Apply(s, Miss(call)))
  {
    var t := Apply(s, Miss(call));
    assert t.calls.Keys == s.calls.Keys;
    assert Active(t) == Active(s);
    SubsetIsSmaller(Missed(t), Missed(s) + {call});
    ActiveFit(width, t);
  }

  lemma TellKeepsBound(width: nat, s: Group, call: nat, at: nat)
    requires Bounded(width, s) && Enabled(width, s, Tell(call, at))
    ensures Bounded(width, Apply(s, Tell(call, at)))
  {
    var t := Apply(s, Tell(call, at));
    assert t.calls.Keys == s.calls.Keys - {call};
    assert Active(t) == Active(s) - {call};
    if s.calls[call] == Sending(0) { assert Missed(t) == Missed(s); }
    else { assert Missed(t) == Missed(s) - {call}; }
  }

  lemma LeaveKeepsBound(width: nat, s: Group, call: nat)
    requires Bounded(width, s) && Enabled(width, s, Leave(call))
    ensures Bounded(width, Apply(s, Leave(call)))
  {
    var t := Apply(s, Leave(call));
    assert t.calls.Keys == s.calls.Keys - {call};
    assert Active(t) == Active(s) && Missed(t) == Missed(s);
  }

  lemma StepKeepsBound(width: nat, s: Group, action: Action)
    requires Bounded(width, s) && Breaker(s) && Enabled(width, s, action)
    ensures Bounded(width, Apply(s, action)) && Breaker(Apply(s, action))
  {
    match action
    case Enter(call) => EnterKeepsBound(width, s, call);
    case Ask(call, at) => AskKeepsBound(width, s, call, at);
    case Miss(call) => MissKeepsBound(width, s, call);
    case Tell(call, at) => TellKeepsBound(width, s, call, at);
    case Leave(call) => LeaveKeepsBound(width, s, call);
  }

  /**
   In every interleaving of at most `width` calls at a time, until the first answer: the breaker is
   closed if and only if fewer verdicts than its threshold were given, and apart from the calls
   without a send there are at most `max(T / 2, 1) - 1 + width` of them. For calls one after the
   other that is `max(T / 2, 1)`.
   */
  lemma {:induction false} BreakerUnderConcurrency(width: nat, threshold: nat, delay: nat, tripAfter: nat, timeout: nat,
                                                   run: seq<Action>)
    requires width > 0 && Exec(width, Start(threshold, delay, tripAfter, timeout), run).Some?
    ensures var s := Exec(width, Start(threshold, delay, tripAfter, timeout), run).value;
            && s.breaker.failures == s.told <= Patience(threshold) - 1 + width + s.impatient
            && (s.breaker.state == CB.Closed <==> s.told < CB.Tripping(tripAfter))
            && s.recovery.threshold == threshold && s.breaker.threshold == tripAfter
            && Bounded(width, s) && Breaker(s)
  {
    if run == [] {
      assert Missed(Start(threshold, delay, tripAfter, timeout)) == {};
    } else {
      var front := run[..|run| - 1];
      BreakerUnderConcurrency(width, threshold, delay, tripAfter, timeout, front);
      StepKeepsBound(width, Exec(width, Start(threshold, delay, tripAfter, timeout), front).value, run[|run| - 1]);
    }
  }

  // ---------------------------------------------------------------------------------------------
  // The bound is reached
  // ---------------------------------------------------------------------------------------------

  lemma Appended(width: nat, s: Group, run: seq<Action>, action: Action)
    requires Exec(width, s, run).Some? && Enabled(width, Exec(width, s, run).value, action)
    ensures Exec(width, s, run + [action]) == Some(Apply(Exec(width, s, run).value, action))
  {
    assert (run + [action])[..|run|] == run;
  }

  /** The first `n` calls are all sending. */
  function Slots(n: nat): (m: map<nat, Progress>)
    ensures |m| == n && forall c: nat :: c in m <==> c < n
    ensures forall c :: c in m ==> m[c] == Sending(0)
  {
    if n == 0 then map[] else Slots(n - 1)[n - 1 := Sending(0)]
  }

  /** The clock reading of an action, if it takes one. */
  function Reading(action: Action): Option<nat> {
    match action
    case Ask(_, at) => Some(at)
    case Tell(_, at) => Some(at)
    case _ => None
  }

  /** The clock never goes back during the run and is at most `now` at its end. */
  predicate Forward(run: seq<Action>, now: nat) {
    && (forall i :: 0 <= i < |run| && Reading(run[i]).Some? ==> Reading(run[i]).value <= now)
    && (forall i, j :: 0 <= i < j < |run| && Reading(run[i]).Some? && Reading(run[j]).Some? ==>
          Reading(run[i]).value <= Reading(run[j]).value)
  }

  /** The run can be extended by an action at `now`. */
  lemma Extended(width: nat, s: Group, run: seq<Action>, now: nat, action: Action)
    requires Exec(width, s, run).Some? && Enabled(width, Exec(width, s, run).value, action)
    requires Forward(run, now) && (Reading(action).None? || Reading(action) == Some(now))
    ensures Exec(width, s, run + [action]) == Some(Apply(Exec(width, s, run).value, action))
    ensures Forward(run + [action], now)
  {
    Appended(width, s, run, action);
  }

  /** The breaker lets calls through, if need be because its timeout has passed. */
  predicate Lenient(b: CB.Breaker, now: nat) {
    b.state == CB.Open ==> b.openedAt.Some? && b.openedAt.value + b.timeout <= now
  }

  /** `k` calls failed one after the other, and `n` are sending. */
  predicate Poised(s: Group, threshold: nat, timeout: nat, k: nat, n: nat, now: nat) {
    && s.recovery.threshold == threshold && s.recovery.state == RT.Healthy && s.recovery.failures == k
    && s.breaker.timeout == timeout && Lenient(s.breaker, now)
    && s.calls == Slots(n) && s.told == k && s.impatient == 0
  }

  lemma {:induction false} AllAtOnce(width: nat, start: Group, threshold: nat, timeout: nat, k: nat,
                                     before: seq<Action>, now: nat, n: nat)
    returns (run: seq<Action>)
    requires n <= width && Exec(width, start, before).Some? && Forward(before, now)
    requires Poised(Exec(width, start, before).value, threshold, timeout, k, 0, now)
    ensures Exec(width, start, run).Some? && Forward(run, now)
    ensures Poised(Exec(width, start, run).value, threshold, timeout, k, n, now)
  {
    if n == 0 {
      run := before;
    } else {
      run := AllAtOnce(width, start, threshold, timeout, k, before, now, n - 1);
      Extended(width, start, run, now, Enter(n - 1));
      run := run + [Enter(n - 1)];
      Extended(width, start, run, now, Ask(n - 1, now));
      run := run + [Ask(n - 1, now)];
      assert Exec(width, start, run).value.calls == Slots(n);
    }
  }

  /** The one call that is sending fails; a timeout later the breaker lets the next one through. */
  lemma FailsAlone(width: nat, start: Group, threshold: nat, timeout: nat, k: nat, before: seq<Action>, now: nat)
    returns (run: seq<Action>)
    requires Exec(width, start, before).Some? && Forward(before, now) && k + 1 < Patience(threshold)
    requires Poised(Exec(width, start, before).value, threshold, timeout, k, 1, now)
    ensures Exec(width, start, run).Some? && Forward(run, now)
    ensures Poised(Exec(width, start, run).value, threshold, timeout, k + 1, 0, now + timeout)
  {
    Extended(width, start, before, now, Miss(0));
    run := before + [Miss(0)];
    Extended(width, start, run, now, Tell(0, now));
    run := run + [Tell(0, now)];
    assert Exec(width, start, run).value.calls == Slots(0);
  }

  lemma {:induction false} OneAfterTheOther(width: nat, start: Group, threshold: nat, timeout: nat, k: nat)
    returns (run: seq<Action>, now: nat)
    requires width > 0 && Poised(start, threshold, timeout, 0, 0, 0) && k < Patience(threshold)
    ensures Exec(width, start, run).Some? && Forward(run, now)
    ensures Poised(Exec(width, start, run).value, threshold, timeout, k, 0, now)
  {
    if k == 0 {
      run, now := [], 0;
    } else {
      run, now := OneAfterTheOther(width, start, threshold, timeout, k - 1);
      run := AllAtOnce(width, start, threshold, timeout, k - 1, run, now, 1);
      run := FailsAlone(width, start, threshold, timeout, k - 1, run, now);
      now := now + timeout;
    }
  }

  lemma {:induction false} AllFail(width: nat, start: Group, before: seq<Action>, now: nat, n: nat)
    returns (run: seq<Action>)
    requires Exec(width, start, before).Some? && Exec(width, start, before).value.calls == Slots(n)
    requires Forward(before, now)
    ensures Exec(width, start, run).Some? && Forward(run, now)
    ensures Exec(width, start, run).value.told == Exec(width, start, before).value.told + n
    ensures Exec(width, start, run).value.impatient == Exec(width, start, before).value.impatient
    decreases n
  {
    if n == 0 {
      run := before;
    } else {
      Extended(width, start, before, now, Miss(n - 1));
      run := before + [Miss(n - 1)];
      Extended(width, start, run, now, Tell(n - 1, now));
      run := run + [Tell(n - 1, now)];
      assert Exec(width, start, run).value.calls == Slots(n - 1);
      run := AllFail(width, start, run, now, n - 1);
    }
  }

  /** For every setting, a run on a clock that never goes back in which all calls send and the bound is met. */
  lemma BoundIsReached(width: nat, threshold: nat, delay: nat, tripAfter: nat, timeout: nat)
    returns (run: seq<Action>, now: nat)
    requires width > 0
    ensures Exec(width, Start(threshold, delay, tripAfter, timeout), run).Some? && Forward(run, now)
    ensures var s := Exec(width, Start(threshold, delay, tripAfter, timeout), run).value;
            s.impatient == 0 && s.breaker.failures == s.told == Patience(threshold) - 1 + width
  {
    var start, k := Start(threshold, delay, tripAfter, timeout), Patience(threshold) - 1;
    assert Slots(0) == map[];
    run, now := OneAfterTheOther(width, start, threshold, timeout, k);
    run := AllAtOnce(width, start, threshold, timeout, k, run, now, width);
    run := AllFail(width, start, run, now, width);
    BreakerUnderConcurrency(width, threshold, delay, tripAfter, timeout, run);
  }

  // ---------------------------------------------------------------------------------------------
  // A call of the client is a schedule of these steps
  // ---------------------------------------------------------------------------------------------

  function MissedMore(progress: Progress, n: nat): Progress {
    if progress.Sending? then Sending(progress.misses + n) else progress
  }

  lemma {:induction false} MissesInARow(width: nat, start: Group, before: seq<Action>, call: nat, log: seq<RT.Record>)
    returns (run: seq<Action>)
    requires Exec(width, start, before).Some?
    requires call in Exec(width, start, before).value.calls && !Exec(width, start, before).value.calls[call].AtBreaker?
    requires forall i :: 0 <= i < |log| ==> log[i] == RT.Broke
    ensures Exec(width, start, run).Some?
    ensures var s := Exec(width, start, before).value;
            Exec(width, start, run).value ==
            s.(recovery := RT.Run(s.recovery, log), calls := s.calls[call := MissedMore(s.calls[call], |log|)])
    decreases |log|
  {
    var s := Exec(width, start, before).value;
    if log == [] {
      run := before;
      assert s.calls == s.calls[call := s.calls[call]];
    } else {
      run := MissesInARow(width, start, before, call, log[..|log| - 1]);
      Appended(width, start, run, Miss(call));
      run := run + [Miss(call)];
      assert Exec(width, start, run).value.calls == s.calls[call := MissedMore(s.calls[call], |log|)];
    }
  }

  /** A call alone: it asks the breaker if the storage counts as available, records its misses and reports. */
  lemma CallAlone(width: nat, start: Group, askedAt: nat, toldAt: nat, log: seq<RT.Record>) returns (run: seq<Action>)
    requires width > 0 && start.calls == map[] && forall i :: 0 <= i < |log| ==> log[i] == RT.Broke
    ensures Exec(width, start, run).Some?
    ensures var t := Exec(width, start, run).value;
            var consults := start.recovery.state !in {RT.Unavailable, RT.Degraded};
            var normal := consults && CB.Allowed(start.breaker, askedAt);
            var asked := if consults then CB.Step(start.breaker, CB.Allow(askedAt)) else start.breaker;
            && t.calls == map[] && t.recovery == RT.Run(start.recovery, log)
            && t.breaker == (if normal then CB.Step(asked, CB.Failure(toldAt)) else asked)
            && t.told == start.told + (if normal then 1 else 0)
            && t.impatient == start.impatient + (if normal && log == [] then 1 else 0)
  {
    var consults := start.recovery.state !in {RT.Unavailable, RT.Degraded};
    Appended(width, start, [], Enter(0));
    run := [] + [Enter(0)];
    if consults {
      Appended(width, start, run, Ask(0, askedAt));
      run := run + [Ask(0, askedAt)];
    }
    run := MissesInARow(width, start, run, 0, log);
    var last := if consults && CB.Allowed(start.breaker, askedAt) then Tell(0, toldAt) else Leave(0);
    Appended(width, start, run, last);
    run := run + [last];
    assert Exec(width, start, run).value.calls == map[];
  }

  /** Every unanswered call of the client is a schedule with the same effect on the shared objects. */
  lemma CallIsASchedule(maxRetries: nat, s: Shared, c: CallRecord, width: nat, start: Group) returns (run: seq<Action>)
    requires LegalCall(maxRetries, s, c) && Undelivered(Called(c))
    requires width > 0 && start.recovery == s.recovery && start.breaker == s.breaker && start.calls == map[]
    ensures Exec(width, start, run).Some?
    ensures var t := Exec(width, start, run).value;
            && t.recovery == After(s, Called(c)).recovery && t.breaker == After(s, Called(c)).breaker
            && t.calls == map[]
            && t.told == start.told + (if IsNormal(Called(c)) then 1 else 0)
            && t.impatient == start.impatient + (if IsImpatient(Called(c)) then 1 else 0)
  {
    UnansweredBreaks(maxRetries, s, c);
    BreakerAfter(s.breaker, c);
    run := CallAlone(width, start, c.w.askedAt, c.toldAt, RecoveryLog(c));
  }
}
