/**
 Concurrent sends of the storage client: the map of response receivers and the channel counters.
 Each step is one lock section of one call to `try_send_request`; calls interleave freely.
 */
module PendingRequests {
  import opened Options
  import CC = ChannelCounters

  datatype Pc =
    | Created
    | Inserted
    | SendSucceeded
    | SentRecorded
    | Waiting(receiver: nat)
    | ReceiverNotFound
    | SendBroke
    | FailureRecorded
    | TimedOut

  /** A call in progress, its fresh request id and the receiver of its own response channel. */
  datatype Send = Send(id: nat, receiver: nat, pc: Pc)

  /** How the wait for a response ends. */
  datatype Wait = Answered | ChannelClosed | Expired

  /** `log` holds the records made on the channel; `answered` and `closed` count the waits that ended so. */
  datatype Client = Client(pending: map<nat, nat>, calls: map<nat, Send>, ids: set<nat>,
                           log: seq<CC.Record>, answered: nat, closed: nat)

  const INIT := Client(map[], map[], {}, [], 0, 0)

  datatype Action =
    | Start(call: nat, id: nat, receiver: nat)
    | Insert(call: nat)
    | TrySend(call: nat, ok: bool)
    | RecordSent(call: nat, congested: bool)
    | TakeReceiver(call: nat)
    | Await(call: nat, outcome: Wait)
    | RecordTimeout(call: nat)
    | RecordFailure(call: nat)
    | Discard(call: nat)

  predicate At(s: Client, call: nat, pc: Pc) {
    call in s.calls && s.calls[call].pc == pc
  }

  predicate Enabled(s: Client, action: Action) {
    match action
    case Start(call, id, _) => call !in s.calls && id !in s.ids
    case Insert(call) => At(s, call, Created)
    case TrySend(call, _) => At(s, call, Inserted)
    case RecordSent(call, _) => At(s, call, SendSucceeded)
    case TakeReceiver(call) => At(s, call, SentRecorded)
    case Await(call, _) => call in s.calls && s.calls[call].pc.Waiting?
    case RecordTimeout(call) => At(s, call, TimedOut)
    case RecordFailure(call) => At(s, call, SendBroke)
    case Discard(call) => At(s, call, FailureRecorded)
  }

  function Goto(s: Client, call: nat, pc: Pc): Client
    requires call in s.calls
  {
    s.(calls := s.calls[call := s.calls[call].(pc := pc)])
  }

  function Return(s: Client, call: nat): Client {
    s.(calls := s.calls - {call})
  }

  function Apply(s: Client, action: Action): Client
    requires Enabled(s, action)
  {
    match action
    case Start(call, id, receiver) => s.(calls := s.calls[call := Send(id, receiver, Created)], ids := s.ids + {id})
    case Insert(call) => Goto(s, call, Inserted).(pending := s.pending[s.calls[call].id := s.calls[call].receiver])
    case TrySend(call, ok) => Goto(s, call, if ok then SendSucceeded else SendBroke)
    case RecordSent(call, congested) => Goto(s, call, SentRecorded).(log := s.log + [CC.RequestSent(congested)])
    case TakeReceiver(call) =>
      if s.calls[call].id in s.pending then
        Goto(s, call, Waiting(s.pending[s.calls[call].id])).(pending := s.pending - {s.calls[call].id})
      else Goto(s, call, ReceiverNotFound)
    case Await(call, outcome) =>
      (match outcome
       case Answered => Return(s, call).(answered := s.answered + 1)
       case ChannelClosed => Return(s, call).(closed := s.closed + 1)
       case Expired => Goto(s, call, TimedOut))
    case RecordTimeout(call) => Return(s, call).(log := s.log + [CC.TimedOut])
    case RecordFailure(call) => Goto(s, call, FailureRecorded).(log := s.log + [CC.SendFailed])
    case Discard(call) => Return(s, call).(pending := s.pending - {s.calls[call].id})
  }

  function Exec(run: seq<Action>): Option<Client> {
    if run == [] then Some(INIT)
    else match Exec(run[..|run| - 1])
         case None => None
         case Some(s) => if Enabled(s, run[|run| - 1]) then Some(Apply(s, run[|run| - 1])) else None
  }

  // ---------------------------------------------------------------------------------------------
  // The map of receivers
  // ---------------------------------------------------------------------------------------------

  /** The call is between inserting its receiver and removing it. */
  predicate Registered(c: Send) {
    c.pc in {Inserted, SendSucceeded, SentRecorded, SendBroke, FailureRecorded}
  }

  ghost predicate MapInv(s: Client) {
    && (forall c :: c in s.calls ==> s.calls[c].id in s.ids)
    && (forall c, d :: c in s.calls && d in s.calls && s.calls[c].id == s.calls[d].id ==> c == d)
    && (forall c :: c in s.calls && Registered(s.calls[c]) ==>
          s.calls[c].id in s.pending && s.pending[s.calls[c].id] == s.calls[c].receiver)
    && (forall id :: id in s.pending ==> exists c :: c in s.calls && Registered(s.calls[c]) && s.calls[c].id == id)
    && (forall c :: c in s.calls ==> s.calls[c].pc != ReceiverNotFound)
    && (forall c :: c in s.calls && s.calls[c].pc.Waiting? ==> s.calls[c].pc.receiver == s.calls[c].receiver)
  }

  lemma InsertKeepsMap(s: Client, call: nat)
    requires MapInv(s) && Enabled(s, Insert(call))
    ensures MapInv(Apply(s, Insert(call)))
  {
    var t := Apply(s, Insert(call));
    forall id | id in t.pending ensures exists c :: c in t.calls && Registered(t.calls[c]) && t.calls[c].id == id {
      if id == s.calls[call].id { assert Registered(t.calls[call]); }
      else {
        var c :| c in s.calls && Registered(s.calls[c]) && s.calls[c].id == id;
        assert c in t.calls && Registered(t.calls[c]);
      }
    }
  }

  /** Removing a call's own id from the map leaves all other registrations alone. */
  lemma RemovalKeepsMap(s: Client, t: Client, call: nat)
    requires MapInv(s) && call in s.calls && Registered(s.calls[call])
    requires t.pending == s.pending - {s.calls[call].id} && t.ids == s.ids
    requires || t.calls == s.calls - {call}
             || t.calls == s.calls[call := s.calls[call].(pc := Waiting(s.calls[call].receiver))]
    ensures MapInv(t)
  {
    forall id | id in t.pending ensures exists c :: c in t.calls && Registered(t.calls[c]) && t.calls[c].id == id {
      var c :| c in s.calls && Registered(s.calls[c]) && s.calls[c].id == id;
      assert c != call && c in t.calls && t.calls[c] == s.calls[c];
    }
  }

  lemma GotoKeepsMap(s: Client, t: Client, call: nat, pc: Pc)
    requires MapInv(s) && call in s.calls && t == Goto(s, call, pc).(log := t.log)
    requires pc != ReceiverNotFound && !pc.Waiting?
    requires Registered(s.calls[call]) <==> Registered(s.calls[call].(pc := pc))
    ensures MapInv(t)
  {
    forall id | id in t.pending ensures exists c :: c in t.calls && Registered(t.calls[c]) && t.calls[c].id == id {
      var c :| c in s.calls && Registered(s.calls[c]) && s.calls[c].id == id;
      assert c in t.calls && Registered(t.calls[c]);
    }
  }

  lemma LeaveKeepsMap(s: Client, t: Client, call: nat)
    requires MapInv(s) && call in s.calls && !Registered(s.calls[call])
    requires t.pending == s.pending && t.ids == s.ids && t.calls == s.calls - {call}
    ensures MapInv(t)
  {
    forall id | id in t.pending ensures exists c :: c in t.calls && Registered(t.calls[c]) && t.calls[c].id == id {
      var c :| c in s.calls && Registered(s.calls[c]) && s.calls[c].id == id;
      assert c in t.calls && Registered(t.calls[c]);
    }
  }

  lemma StartKeepsMap(s: Client, call: nat, id: nat, receiver: nat)
    requires MapInv(s) && Enabled(s, Start(call, id, receiver))
    ensures MapInv(Apply(s, Start(call, id, receiver)))
  {
    var t := Apply(s, Start(call, id, receiver));
    forall i | i in t.pending ensures exists c :: c in t.calls && Registered(t.calls[c]) && t.calls[c].id == i {
      var c :| c in s.calls && Registered(s.calls[c]) && s.calls[c].id == i;
      assert c in t.calls && Registered(t.calls[c]);
    }
  }

  lemma StepKeepsMap(s: Client, action: Action)
    requires MapInv(s) && Enabled(s, action)
    ensures MapInv(Apply(s, action))
  {
    var t := Apply(s, action);
    match action
    case Start(call, id, receiver) => StartKeepsMap(s, call, id, receiver);
    case Insert(call) => InsertKeepsMap(s, call);
    case TrySend(call, ok) => GotoKeepsMap(s, t, call, if ok then SendSucceeded else SendBroke);
    case RecordSent(call, _) => GotoKeepsMap(s, t, call, SentRecorded);
    case TakeReceiver(call) => RemovalKeepsMap(s, t, call);
    case Await(call, outcome) =>
      if outcome.Expired? { GotoKeepsMap(s, t, call, TimedOut); } else { LeaveKeepsMap(s, t, call); }
    case RecordTimeout(call) => LeaveKeepsMap(s, t, call);
    case RecordFailure(call) => GotoKeepsMap(s, t, call, FailureRecorded);
    case Discard(call) => RemovalKeepsMap(s, t, call);
  }

  lemma {:induction false} RunKeepsMap(run: seq<Action>)
    requires Exec(run).Some?
    ensures MapInv(Exec(run).value)
  {
    if run == [] {
    } else {
      RunKeepsMap(run[..|run| - 1]);
      StepKeepsMap(Exec(run[..|run| - 1]).value, run[|run| - 1]);
    }
  }

  /**
   In every interleaving the map holds exactly the ids of the calls between insert and remove, each
   with that call's own receiver. So the receiver is always found, a call waits on its own channel,
   and the map is empty when no call is in progress.
   */
  lemma ReceiversAreExact(run: seq<Action>)
    requires Exec(run).Some?
    ensures var s := Exec(run).value;
            && (forall id :: id in s.pending <==>
                  exists c :: c in s.calls && Registered(s.calls[c]) && s.calls[c].id == id)
            && (forall c :: c in s.calls && Registered(s.calls[c]) ==>
                  s.calls[c].id in s.pending && s.pending[s.calls[c].id] == s.calls[c].receiver)
            && (forall c :: c in s.calls ==> s.calls[c].pc != ReceiverNotFound)
            && (forall c :: c in s.calls && s.calls[c].pc.Waiting? ==> s.calls[c].pc.receiver == s.calls[c].receiver)
            && (s.calls == map[] ==> s.pending == map[])
  {
    RunKeepsMap(run);
    var s := Exec(run).value;
    assert s.calls == map[] ==> forall id :: id !in s.pending;
  }

  // ---------------------------------------------------------------------------------------------
  // The pending counter
  // ---------------------------------------------------------------------------------------------

  predicate InFlight(c: Send) {
    c.pc == SentRecorded || c.pc.Waiting? || c.pc == TimedOut || c.pc == ReceiverNotFound
  }

  /** The calls that recorded their send and have not returned. */
  function Flying(s: Client): set<nat> {
    set c | c in s.calls && InFlight(s.calls[c])
  }

  ghost predicate NeverDips(log: seq<CC.Record>) {
    forall i :: 0 <= i <= |log| ==> 0 <= CC.Walk(log[..i])
  }

  ghost predicate CountInv(s: Client) {
    NeverDips(s.log) && CC.Walk(s.log) == |Flying(s)| + s.answered + s.closed
  }

  lemma Logged(log: seq<CC.Record>, record: CC.Record)
    requires NeverDips(log) && 0 <= CC.Walk(log) + CC.Delta(record)
    ensures NeverDips(log + [record]) && CC.Walk(log + [record]) == CC.Walk(log) + CC.Delta(record)
  {
    var more := log + [record];
    assert more[..|log|] == log && more[..|more|] == more;
    forall i | 0 <= i <= |more| ensures 0 <= CC.Walk(more[..i]) {
      if i <= |log| { assert more[..i] == log[..i]; }
    }
  }

  /** A step of one call adds it to the calls in flight, removes it, or leaves them as they are. */
  lemma FlyingChanges(s: Client, action: Action)
    requires Enabled(s, action)
    ensures var t := Apply(s, action);
            match action
            case Start(_, _, _) => Flying(t) == Flying(s)
            case Insert(_) => Flying(t) == Flying(s)
            case TrySend(_, _) => Flying(t) == Flying(s)
            case RecordSent(call, _) => call !in Flying(s) && Flying(t) == Flying(s) + {call}
            case TakeReceiver(_) => Flying(t) == Flying(s)
            case Await(call, outcome) =>
              call in Flying(s) && Flying(t) == if outcome.Expired? then Flying(s) else Flying(s) - {call}
            case RecordTimeout(call) => call in Flying(s) && Flying(t) == Flying(s) - {call}
            case RecordFailure(_) => Flying(t) == Flying(s)
            case Discard(_) => Flying(t) == Flying(s)
  {
  }

  lemma SentKeepsCount(s: Client, t: Client, call: nat, congested: bool)
    requires CountInv(s) && call !in Flying(s) && Flying(t) == Flying(s) + {call}
    requires t.log == s.log + [CC.RequestSent(congested)] && t.answered == s.answered && t.closed == s.closed
    ensures CountInv(t)
  {
    Logged(s.log, CC.RequestSent(congested));
  }

  lemma TimeoutKeepsCount(s: Client, t: Client, call: nat)
    requires CountInv(s) && call in Flying(s) && Flying(t) == Flying(s) - {call}
    requires t.log == s.log + [CC.TimedOut] && t.answered == s.answered && t.closed == s.closed
    ensures CountInv(t)
  {
    assert |Flying(s)| == |Flying(t)| + 1;
    Logged(s.log, CC.TimedOut);
  }

  lemma AnswerKeepsCount(s: Client, t: Client, call: nat)
    requires CountInv(s) && call in Flying(s) && Flying(t) == Flying(s) - {call}
    requires t.log == s.log && t.answered + t.closed == s.answered + s.closed + 1
    ensures CountInv(t)
  {
    assert |Flying(s)| == |Flying(t)| + 1;
  }

  lemma StepKeepsCount(s: Client, action: Action)
    requires CountInv(s) && Enabled(s, action)
    ensures CountInv(Apply(s, action))
  {
    var t := Apply(s, action);
    FlyingChanges(s, action);
    match action
    case RecordSent(call, congested) => SentKeepsCount(s, t, call, congested);
    case RecordTimeout(call) => TimeoutKeepsCount(s, t, call);
    case RecordFailure(_) => Logged(s.log, CC.SendFailed);
    case Await(call, outcome) => if !outcome.Expired? { AnswerKeepsCount(s, t, call); }
    case Start(_, _, _) =>
    case Insert(_) =>
    case TrySend(_, _) =>
    case TakeReceiver(_) =>
    case Discard(_) =>
  }

  lemma {:induction false} RunKeepsCount(run: seq<Action>)
    requires Exec(run).Some?
    ensures CountInv(Exec(run).value)
  {
    if run == [] {
      assert Flying(INIT) == {};
    } else {
      RunKeepsCount(run[..|run| - 1]);
      StepKeepsCount(Exec(run[..|run| - 1]).value, run[|run| - 1]);
    }
  }

  /**
   The channel's pending counter is fed by the client alone, which never records a response. So it
   counts the calls in flight plus every call that was ever answered or saw its response channel
   close: it is the number of pending requests if and only if there was no such call yet.
   */
  lemma CounterKeepsFinishedCalls(run: seq<Action>)
    requires Exec(run).Some?
    ensures var s := Exec(run).value;
            && CC.Run(s.log).pending == |Flying(s)| + s.answered + s.closed
            && (CC.Run(s.log).pending == |Flying(s)| <==> s.answered == 0 && s.closed == 0)
  {
    RunKeepsCount(run);
    CC.PlainDifference(Exec(run).value.log);
  }

  lemma Extended(run: seq<Action>, action: Action)
    requires Exec(run).Some? && Enabled(Exec(run).value, action)
    ensures Exec(run + [action]) == Some(Apply(Exec(run).value, action))
  {
    assert (run + [action])[..|run|] == run;
  }

  /** One answered call leaves the counter at one with nothing in flight. */
  lemma CounterLeaks(call: nat, id: nat, receiver: nat) returns (run: seq<Action>)
    ensures Exec(run).Some? && Exec(run).value.calls == map[] && CC.Run(Exec(run).value.log).pending == 1
  {
    Extended([], Start(call, id, receiver));
    run := [] + [Start(call, id, receiver)];
    Extended(run, Insert(call));
    run := run + [Insert(call)];
    Extended(run, TrySend(call, true));
    run := run + [TrySend(call, true)];
    Extended(run, RecordSent(call, false));
    run := run + [RecordSent(call, false)];
    Extended(run, TakeReceiver(call));
    run := run + [TakeReceiver(call)];
    Extended(run, Await(call, Answered));
    run := run + [Await(call, Answered)];
    assert Exec(run).value.calls == map[];
    assert Flying(Exec(run).value) == {};
    CounterKeepsFinishedCalls(run);
  }

  // ---------------------------------------------------------------------------------------------
  // Every send is recorded once
  // ---------------------------------------------------------------------------------------------

  function StandingAt(s: Client, pc: Pc): set<nat> {
    set c | c in s.calls && s.calls[c].pc == pc
  }

  /** How many sends of the run went through or broke, and how many waits ended in a timeout. */
  function Sends(run: seq<Action>, ok: bool): nat {
    if run == [] then 0
    else
      var last := run[|run| - 1];
      Sends(run[..|run| - 1], ok) + if last.TrySend? && last.ok == ok then 1 else 0
  }

  function Expirations(run: seq<Action>): nat {
    if run == [] then 0
    else
      var last := run[|run| - 1];
      Expirations(run[..|run| - 1]) + if last.Await? && last.outcome.Expired? then 1 else 0
  }

  ghost predicate Recorded(s: Client, sent: nat, broken: nat, expired: nat) {
    var log := multiset(s.log);
    && log[CC.RequestSent(true)] + log[CC.RequestSent(false)] + |StandingAt(s, SendSucceeded)| == sent
    && log[CC.SendFailed] + |StandingAt(s, SendBroke)| == broken
    && log[CC.TimedOut] + |StandingAt(s, TimedOut)| == expired
    && log[CC.RequestReceived] == log[CC.ResponseSent] == 0
  }

  function Bit(b: bool): int {
    if b then 1 else 0
  }

  lemma OneMoreOrLess(calls: set<nat>, x: nat)
    ensures |calls + {x}| == |calls| + Bit(x !in calls)
    ensures |calls - {x}| == |calls| - Bit(x in calls)
  {
    if x in calls { assert calls + {x} == calls; } else { assert calls - {x} == calls; }
  }

  lemma GotoSet(s: Client, call: nat, next: Pc, place: Pc)
    requires call in s.calls
    ensures StandingAt(Goto(s, call, next), place) ==
            if place == next then StandingAt(s, place) + {call} else StandingAt(s, place) - {call}
  {
  }

  lemma StandingGoto(s: Client, call: nat, next: Pc, place: Pc)
    requires call in s.calls
    ensures |StandingAt(Goto(s, call, next), place)| ==
            |StandingAt(s, place)| + Bit(place == next) - Bit(place == s.calls[call].pc)
  {
    GotoSet(s, call, next, place);
    OneMoreOrLess(StandingAt(s, place), call);
  }

  lemma StandingReturn(s: Client, call: nat, place: Pc)
    requires call in s.calls
    ensures |StandingAt(Return(s, call), place)| == |StandingAt(s, place)| - Bit(place == s.calls[call].pc)
  {
    assert StandingAt(Return(s, call), place) == StandingAt(s, place) - {call};
    OneMoreOrLess(StandingAt(s, place), call);
  }

  lemma StandingStart(s: Client, call: nat, id: nat, receiver: nat, place: Pc)
    requires Enabled(s, Start(call, id, receiver)) && place != Created
    ensures StandingAt(Apply(s, Start(call, id, receiver)), place) == StandingAt(s, place)
  {
  }

  /** Where a call stands and where it goes, if it does not return. */
  function Goal(action: Action): Option<Pc> {
    match action
    case TrySend(_, ok) => Some(if ok then SendSucceeded else SendBroke)
    case Await(_, outcome) => if outcome.Expired? then Some(TimedOut) else None
    case RecordSent(_, _) => Some(SentRecorded)
    case RecordFailure(_) => Some(FailureRecorded)
    case _ => None
  }

  lemma StandingAfter(s: Client, action: Action, place: Pc)
    requires Enabled(s, action) && place in {SendSucceeded, SendBroke, TimedOut}
    ensures |StandingAt(Apply(s, action), place)| ==
            |StandingAt(s, place)| + Bit(Goal(action) == Some(place))
            - Bit(match action
                  case RecordSent(_, _) => place == SendSucceeded
                  case RecordFailure(_) => place == SendBroke
                  case RecordTimeout(_) => place == TimedOut
                  case _ => false)
  {
    match action
    case Start(call, id, receiver) => StandingStart(s, call, id, receiver, place);
    case Insert(call) => StandingGoto(s, call, Inserted, place);
    case TrySend(call, ok) => StandingGoto(s, call, if ok then SendSucceeded else SendBroke, place);
    case RecordSent(call, _) => StandingGoto(s, call, SentRecorded, place);
    case TakeReceiver(call) => StandingGoto(s, call, Apply(s, action).calls[call].pc, place);
    case Await(call, outcome) =>
      if outcome.Expired? { StandingGoto(s, call, TimedOut, place); } else { StandingReturn(s, call, place); }
    case RecordTimeout(call) => StandingReturn(s, call, place);
    case RecordFailure(call) => StandingGoto(s, call, FailureRecorded, place);
    case Discard(call) => StandingReturn(s, call, place);
  }

  lemma StepRecords(s: Client, action: Action, sent: nat, broken: nat, expired: nat)
    requires Recorded(s, sent, broken, expired) && Enabled(s, action)
    ensures Recorded(Apply(s, action),
                     sent + Bit(Goal(action) == Some(SendSucceeded)),
                     broken + Bit(Goal(action) == Some(SendBroke)),
                     expired + Bit(Goal(action) == Some(TimedOut)))
  {
    StandingAfter(s, action, SendSucceeded);
    StandingAfter(s, action, SendBroke);
    StandingAfter(s, action, TimedOut);
    var t := Apply(s, action);
    if t.log != s.log {
      assert t.log[..|t.log| - 1] == s.log;
      CC.LastCounts(t.log);
    }
  }

  /**
   In every interleaving each send that went through, each that broke and each timeout is recorded
   exactly once, unless its call still stands before that record; nothing else is recorded.
   */
  lemma {:induction false} SendsAreRecordedOnce(run: seq<Action>)
    requires Exec(run).Some?
    ensures Recorded(Exec(run).value, Sends(run, true), Sends(run, false), Expirations(run))
  {
    if run == [] {
      assert StandingAt(INIT, SendSucceeded) == StandingAt(INIT, SendBroke) == StandingAt(INIT, TimedOut) == {};
    } else {
      var front := run[..|run| - 1];
      SendsAreRecordedOnce(front);
      StepRecords(Exec(front).value, run[|run| - 1], Sends(front, true), Sends(front, false), Expirations(front));
    }
  }
}
