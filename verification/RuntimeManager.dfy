/** The lifecycle of the runtime manager: start, stop, forced shutdown, and the storage components. */
module RuntimeLifecycle {
  import opened Options

  datatype Lifecycle = Created | Starting | Running | Stopping | Stopped | Failed(reason: string)

  /** A message channel gives its receiver away once. */
  datatype Channel = Channel(receiver: Option<nat>)

  datatype InitError = ChannelConsumed | NoReceiver

  /** The fields of the manager; `handed` lists the receivers given out so far. */
  datatype Manager = Manager(state: Lifecycle, network: bool, storage: bool, startTime: Option<nat>, monitored: bool,
                             channel: Option<Channel>, client: bool, handed: seq<nat>)

  function Fresh(receiver: nat): Manager {
    Manager(Created, false, false, None, false, Some(Channel(Some(receiver))), false, [])
  }

  /** Calls on the manager. A forced shutdown may be cut off at the `k`-th await of the stop it runs. */
  datatype Op =
    | Start(networkOk: bool, storageOk: bool, at: nat)
    | Stop
    | ForceShutdown(cutAt: Option<nat>)
    | Initialize
    | Close

  predicate Idle(state: Lifecycle) {
    state in {Created, Stopped} || state.Failed?
  }

  function StartSpec(m: Manager, networkOk: bool, storageOk: bool, at: nat): Manager {
    if !Idle(m.state) then m
    else if !networkOk then m.(state := Failed("Network runtime creation failed"))
    else if !storageOk then m.(state := Failed("Storage runtime creation failed"))
    else m.(state := Running, network := true, storage := true, startTime := Some(at), monitored := true)
  }

  function Halted(m: Manager, state: Lifecycle): Manager {
    m.(state := state, network := false, storage := false, startTime := None, monitored := false)
  }

  /** A stop cut off at its first or second await has changed nothing, at its third everything but the final state. */
  function StopSpec(m: Manager, cutAt: Option<nat>): Manager {
    if Idle(m.state) || cutAt == Some(0) || cutAt == Some(1) then m
    else if cutAt == Some(2) then Halted(m, Stopping)
    else Halted(m, Stopped)
  }

  predicate Cut(m: Manager, cutAt: Option<nat>) {
    cutAt == Some(0) || (!Idle(m.state) && (cutAt == Some(1) || cutAt == Some(2)))
  }

  function ShutdownSpec(m: Manager, cutAt: Option<nat>): Manager {
    var s := StopSpec(m, cutAt);
    if Cut(m, cutAt) then s.(state := Failed("Shutdown timeout"), network := false, storage := false) else s
  }

  function InitializeSpec(m: Manager): Manager {
    if m.channel.None? then m
    else if m.channel.value.receiver.None? then m.(channel := None)
    else m.(channel := None, client := true, handed := m.handed + [m.channel.value.receiver.value])
  }

  function Step(m: Manager, op: Op): Manager {
    match op
    case Start(networkOk, storageOk, at) => StartSpec(m, networkOk, storageOk, at)
    case Stop => StopSpec(m, None)
    case ForceShutdown(cutAt) => ShutdownSpec(m, cutAt)
    case Initialize => InitializeSpec(m)
    case Close => m.(client := false)
  }

  function Run(m: Manager, ops: seq<Op>): Manager {
    if ops == [] then m else Step(Run(m, ops[..|ops| - 1]), ops[|ops| - 1])
  }

  // ---------------------------------------------------------------------------------------------
  // What holds between calls
  // ---------------------------------------------------------------------------------------------

  predicate Settled(m: Manager) {
    && (m.state == Running || Idle(m.state))
    && (m.state == Running <==> m.network) && (m.state == Running <==> m.storage)
    && (m.state == Running ==> m.startTime.Some? && m.monitored)
    && (m.state in {Created, Stopped} ==> m.startTime.None? && !m.monitored)
    && (m.client ==> m.channel.None?)
    && (m.channel.Some? ==> m.channel.value.receiver.Some? && m.handed == [])
    && (m.channel.None? <==> |m.handed| == 1) && |m.handed| <= 1
  }

  class RuntimeManager {
    var state: Lifecycle
    var networkRuntime: bool
    var storageRuntime: bool
    var startTime: Option<nat>
    var healthCheck: bool
    var messageChannel: Option<Channel>
    var storageClient: bool
    ghost var handed: seq<nat>

    ghost function View(): Manager
      reads this
    {
      Manager(state, networkRuntime, storageRuntime, startTime, healthCheck, messageChannel, storageClient, handed)
    }

    /** Creation is refused exactly when the configuration does not validate, with that message. */
    static method New(invalid: Option<string>, receiver: nat) returns (r: Result<RuntimeManager, string>)
      ensures invalid.Some? ==> r == Err(invalid.value)
      ensures invalid.None? ==> r.Ok? && fresh(r.value) && r.value.View() == Fresh(receiver) && Settled(Fresh(receiver))
    {
      if invalid.Some? { return Err(invalid.value); }
      var manager := new RuntimeManager(receiver);
      return Ok(manager);
    }

    constructor (receiver: nat)
      ensures View() == Fresh(receiver) && Settled(View())
    {
      state := Created;
      networkRuntime, storageRuntime, healthCheck, storageClient := false, false, false, false;
      startTime := None;
      messageChannel := Some(Channel(Some(receiver)));
      handed := [];
    }

    method Start(networkOk: bool, storageOk: bool, now: nat) returns (ok: bool)
      requires Settled(View())
      modifies this
      ensures View() == StartSpec(old(View()), networkOk, storageOk, now) && Settled(View())
      ensures ok <==> old(state) != Running && networkOk && storageOk
    {
      if state == Running || state == Starting || state == Stopping { return false; }
      state := Starting;
      if !networkOk {
        state := Failed("Network runtime creation failed");
        return false;
      }
      if !storageOk {
        state := Failed("Storage runtime creation failed");
        return false;
      }
      networkRuntime, storageRuntime := true, true;
      startTime := Some(now);
      healthCheck := true;
      state := Running;
      return true;
    }

    /** The body of `stop`, which the caller may cut off at an await. */
    method StopBody(cutAt: Option<nat>) returns (finished: bool)
      requires Settled(View())
      modifies this
      ensures View() == StopSpec(old(View()), cutAt)
      ensures finished <==> !Cut(old(View()), cutAt)
    {
      if cutAt == Some(0) { return false; }
      if state == Stopped || state == Created || state.Failed? { return true; }
      if cutAt == Some(1) { return false; }
      state := Stopping;
      healthCheck := false;
      storageRuntime := false;
      networkRuntime := false;
      startTime := None;
      if cutAt == Some(2) { return false; }
      state := Stopped;
      return true;
    }

    method Stop()
      requires Settled(View())
      modifies this
      ensures View() == StopSpec(old(View()), None) && Settled(View())
      ensures state != Running && !networkRuntime && !storageRuntime
    {
      var finished := StopBody(None);
    }

    method ForceShutdown(cutAt: Option<nat>) returns (ok: bool)
      requires Settled(View())
      modifies this
      ensures View() == ShutdownSpec(old(View()), cutAt) && Settled(View())
      ensures state != Running && !networkRuntime && !storageRuntime
      ensures !ok ==> state == Failed("Shutdown timeout")
    {
      ok := StopBody(cutAt);
      if !ok {
        state := Failed("Shutdown timeout");
        networkRuntime := false;
        storageRuntime := false;
      }
    }

    method InitializeStorageComponents() returns (r: Result<nat, InitError>)
      requires Settled(View())
      modifies this
      ensures View() == InitializeSpec(old(View())) && Settled(View())
      ensures r.Ok? <==> old(handed) == []
      ensures r.Ok? ==> handed == [r.value] && storageClient
      ensures r.Err? ==> r.error == ChannelConsumed && View() == old(View())
    {
      if messageChannel.None? { return Err(ChannelConsumed); }
      var channel := messageChannel.value;
      messageChannel := None;
      if channel.receiver.None? { return Err(NoReceiver); }
      storageClient := true;
      handed := handed + [channel.receiver.value];
      return Ok(channel.receiver.value);
    }

    method CloseStorageRequests() returns (released: bool)
      requires Settled(View())
      modifies this
      ensures View() == old(View()).(client := false) && Settled(View())
      ensures released == old(storageClient)
    {
      released := storageClient;
      storageClient := false;
    }
  }

  // ---------------------------------------------------------------------------------------------
  // Over every run
  // ---------------------------------------------------------------------------------------------

  lemma StepSettles(m: Manager, op: Op)
    requires Settled(m)
    ensures Settled(Step(m, op))
  {
    match op
    case Start(_, _, _) =>
    case Stop =>
    case ForceShutdown(_) =>
    case Initialize =>
    case Close =>
  }

  /** Which receiver the manager still holds or has handed out. */
  predicate OneReceiver(m: Manager, receiver: nat) {
    || (m.channel == Some(Channel(Some(receiver))) && m.handed == [])
    || (m.channel == None && m.handed == [receiver])
  }

  lemma StepKeepsReceiver(m: Manager, op: Op, receiver: nat)
    requires OneReceiver(m, receiver)
    ensures OneReceiver(Step(m, op), receiver)
  {
    if op.Initialize? {
    } else {
      assert Step(m, op).channel == m.channel && Step(m, op).handed == m.handed;
    }
  }

  /** Between any two calls of any run the manager is settled, and it ever hands out only its one receiver, once. */
  lemma {:induction false} AlwaysSettled(receiver: nat, ops: seq<Op>)
    ensures Settled(Run(Fresh(receiver), ops))
    ensures OneReceiver(Run(Fresh(receiver), ops), receiver)
  {
    if ops == [] {
    } else {
      var before := ops[..|ops| - 1];
      AlwaysSettled(receiver, before);
      StepSettles(Run(Fresh(receiver), before), ops[|ops| - 1]);
      StepKeepsReceiver(Run(Fresh(receiver), before), ops[|ops| - 1], receiver);
    }
  }

  predicate Closed(m: Manager) {
    m.channel.None? && !m.client
  }

  lemma StepStaysClosed(m: Manager, op: Op)
    requires Closed(m)
    ensures Closed(Step(m, op)) && Step(m, op).handed == m.handed
  {
    match op
    case Start(_, _, _) =>
    case Stop =>
    case ForceShutdown(_) =>
    case Initialize =>
    case Close =>
  }

  /** A storage client that was closed never comes back, whatever is started again. */
  lemma {:induction false} ClosedForGood(m: Manager, ops: seq<Op>)
    requires Closed(m)
    ensures Closed(Run(m, ops)) && Run(m, ops).handed == m.handed
  {
    if ops == [] {
    } else {
      ClosedForGood(m, ops[..|ops| - 1]);
      StepStaysClosed(Run(m, ops[..|ops| - 1]), ops[|ops| - 1]);
    }
  }

  // ---------------------------------------------------------------------------------------------
  // A start time left behind
  // ---------------------------------------------------------------------------------------------

  /** The manager does not run but has a start time, so it still reports a growing uptime. */
  predicate Stale(m: Manager) {
    m.state != Running && m.startTime.Some?
  }

  /** A forced shutdown cut off before the stop it runs has changed anything. */
  predicate CutsEarly(op: Op) {
    op.ForceShutdown? && (op.cutAt == Some(0) || op.cutAt == Some(1))
  }

  /** A running manager becomes stale by an early cut only; a stale one stays so until it runs again. */
  lemma StaleStep(m: Manager, op: Op)
    requires Settled(m)
    ensures Stale(Step(m, op)) <==> (m.state == Running && CutsEarly(op)) || (Stale(m) && Step(m, op).state != Running)
  {
    match op
    case Start(_, _, _) =>
    case Stop =>
    case ForceShutdown(_) =>
    case Initialize =>
    case Close =>
  }

  /** Whether the manager runs, before the first operation and after each. */
  function Trace(receiver: nat, ops: seq<Op>): (running: seq<bool>)
    ensures |running| == |ops| + 1
  {
    if ops == [] then [false]
    else Trace(receiver, ops[..|ops| - 1]) + [Run(Fresh(receiver), ops).state == Running]
  }

  /** Operation `i` was an early cut of a running manager, which has not run since. */
  predicate CutFor(ops: seq<Op>, running: seq<bool>, i: int)
    requires |running| == |ops| + 1
  {
    0 <= i < |ops| && CutsEarly(ops[i]) && running[i] && forall j :: i < j <= |ops| ==> !running[j]
  }

  lemma CutForLonger(ops: seq<Op>, running: seq<bool>, op: Op, now: bool, i: int)
    requires |running| == |ops| + 1
    ensures CutFor(ops + [op], running + [now], i) <==>
            !now && (CutFor(ops, running, i) || (i == |ops| && CutsEarly(op) && running[|ops|]))
  {
    var longer := running + [now];
    assert longer[|ops| + 1] == now;
    assert forall j :: 0 <= j <= |ops| ==> longer[j] == running[j];
  }

  lemma {:induction false} TraceEnds(receiver: nat, ops: seq<Op>, j: nat)
    requires j <= |ops|
    ensures Trace(receiver, ops)[j] <==> Run(Fresh(receiver), ops[..j]).state == Running
  {
    if j == |ops| {
      assert ops[..j] == ops;
    } else {
      TraceEnds(receiver, ops[..|ops| - 1], j);
      assert ops[..|ops| - 1][..j] == ops[..j];
    }
  }

  /**
   Over every run of a new manager: it does not run and still has a start time if and only if a
   forced shutdown of the running manager was cut off before the stop changed anything, and the
   manager has not run since.
   */
  lemma {:induction false} StaleExactly(receiver: nat, ops: seq<Op>)
    ensures Stale(Run(Fresh(receiver), ops)) <==> exists i :: CutFor(ops, Trace(receiver, ops), i)
  {
    if ops == [] {
    } else {
      var front, op := ops[..|ops| - 1], ops[|ops| - 1];
      var m, now := Run(Fresh(receiver), front), Run(Fresh(receiver), ops).state == Running;
      var running := Trace(receiver, front);
      assert ops == front + [op] && Trace(receiver, ops) == running + [now];
      StaleExactly(receiver, front);
      AlwaysSettled(receiver, front);
      StaleStep(m, op);
      TraceEnds(receiver, front, |front|);
      assert front[..|front|] == front;
      assert Run(Fresh(receiver), ops) == Step(m, op);
      if i: int :| CutFor(ops, Trace(receiver, ops), i) {
        CutForLonger(front, running, op, now, i);
        assert CutFor(front + [op], running + [now], i);
        assert CutFor(front, running, i) ==> Stale(m);
        assert Stale(Step(m, op));
      } else if m.state == Running && CutsEarly(op) {
        CutForLonger(front, running, op, now, |front|);
      } else if Stale(m) {
        var i :| CutFor(front, running, i);
        CutForLonger(front, running, op, now, i);
      }
    }
  }

  /** Such a run, in which two further shutdowns do not help. */
  lemma StartTimeSurvives(receiver: nat, at: nat)
    ensures Stale(Run(Fresh(receiver), [Start(true, true, at), ForceShutdown(Some(1)), Stop, ForceShutdown(None)]))
  {
    var ops := [Start(true, true, at), ForceShutdown(Some(1)), Stop, ForceShutdown(None)];
    assert ops[..3][..2][..1][..0] == [] && ops[..3][..2][..1] == ops[..1] && ops[..3][..2] == ops[..2];
    assert Run(Fresh(receiver), ops[..1]) == Step(Fresh(receiver), ops[0]);
    assert Run(Fresh(receiver), ops[..2]) == Step(Run(Fresh(receiver), ops[..1]), ops[1]);
    assert Run(Fresh(receiver), ops[..3]) == Step(Run(Fresh(receiver), ops[..2]), ops[2]);
  }

  /** What one shutdown does to the start time, from every settled state. */
  lemma ShutdownKeepsStartTime(m: Manager, cutAt: Option<nat>)
    requires Settled(m)
    ensures ShutdownSpec(m, cutAt).startTime.Some? <==>
            m.startTime.Some? && (Idle(m.state) || cutAt == Some(0) || cutAt == Some(1))
    ensures StopSpec(m, None).startTime.Some? <==> m.startTime.Some? && Idle(m.state)
    ensures ShutdownSpec(m, cutAt).state.Failed? <==> Cut(m, cutAt) || m.state.Failed?
  {
  }

  // ---------------------------------------------------------------------------------------------
  // What each call comes to
  // ---------------------------------------------------------------------------------------------

  /**
   After any run: a start succeeds if both runtimes can be created, and otherwise leaves the manager
   failed; a stop that is not cut off leaves a running manager stopped. A start of a running manager
   and a stop of any other change nothing.
   */
  lemma CallsComeTo(receiver: nat, ops: seq<Op>, networkOk: bool, storageOk: bool, at: nat)
    ensures var m := Run(Fresh(receiver), ops);
            var started := Run(Fresh(receiver), ops + [Start(networkOk, storageOk, at)]);
            var stopped := Run(Fresh(receiver), ops + [Stop]);
            && (m.state == Running ==> started == m && stopped.state == Stopped && stopped.startTime == None)
            && (m.state != Running ==> stopped == m)
            && (m.state != Running && networkOk && storageOk ==>
                  started.state == Running && started.startTime == Some(at))
            && (m.state != Running && !(networkOk && storageOk) ==>
                  started.state.Failed? && !started.network && !started.storage)
            && Run(Fresh(receiver), ops + [ForceShutdown(None)]) == stopped
  {
    AlwaysSettled(receiver, ops);
    assert (ops + [Start(networkOk, storageOk, at)])[..|ops|] == ops;
    assert (ops + [Stop])[..|ops|] == ops;
    assert (ops + [ForceShutdown(None)])[..|ops|] == ops;
  }

  /** Operation `i` was the successful start at time `at`, and the manager has run ever since. */
  predicate StartedBy(ops: seq<Op>, running: seq<bool>, i: int, at: nat)
    requires |running| == |ops| + 1
  {
    0 <= i < |ops| && ops[i] == Start(true, true, at) && !running[i] && forall j :: i < j <= |ops| ==> running[j]
  }

  lemma StartedLonger(ops: seq<Op>, running: seq<bool>, op: Op, i: int, at: nat)
    requires |running| == |ops| + 1 && StartedBy(ops, running, i, at)
    ensures StartedBy(ops + [op], running + [true], i, at)
  {
  }

  lemma RunningStep(m: Manager, op: Op)
    requires Settled(m) && Step(m, op).state == Running
    ensures if m.state == Running then Step(m, op).startTime == m.startTime
            else op == Start(true, true, op.at) && Step(m, op).startTime == Some(op.at)
  {
    match op
    case Start(_, _, _) =>
    case Stop =>
    case ForceShutdown(_) =>
    case Initialize =>
    case Close =>
  }

  /** While the manager runs, its start time is that of its last successful start. */
  lemma {:induction false} RunningSince(receiver: nat, ops: seq<Op>) returns (i: int, at: nat)
    requires Run(Fresh(receiver), ops).state == Running
    ensures StartedBy(ops, Trace(receiver, ops), i, at) && Run(Fresh(receiver), ops).startTime == Some(at)
  {
    var k := |ops| - 1;
    var front, op := ops[..k], ops[k];
    var m := Run(Fresh(receiver), front);
    AlwaysSettled(receiver, front);
    RunningStep(m, op);
    assert ops == front + [op] && Trace(receiver, ops) == Trace(receiver, front) + [true];
    TraceEnds(receiver, front, k);
    assert front[..k] == front;
    if m.state == Running {
      i, at := RunningSince(receiver, front);
      StartedLonger(front, Trace(receiver, front), op, i, at);
    } else {
      i, at := k, op.at;
    }
  }
}
