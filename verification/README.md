# Verified model of Kiwi's runtime core

This project models, in Dafny, the parts of Kiwi (a Redis-compatible server) whose correctness is
hardest to see by reading, and proves what they promise over every input, every run and every
interleaving. `dafny verify dfyconfig.toml` checks everything.

- **Attempt protocol** (`Attempt*.dfy`): the lifecycle of one observed storage attempt. Any number
  of attempts, observer handles and threads run together; every atomic access and every lock
  operation is one step, callbacks may panic and may enter the API again. A step of one call is a
  local function (`AttemptMachine.Micro`). `AttemptInvariant` proves what that step keeps for its
  own call and guarantees to all others, `AttemptRuns` lifts it to every schedule,
  `AttemptTheorems` states what always holds, `AttemptProgress` what calls achieve, `AttemptPoison`
  what poisons an observer handle and what that does to later calls, and `AttemptLives` which
  sequences of states an attempt can go through.
- **Storage client** (`CircuitBreaker`, `Recovery`, `RequestQueue`, `ChannelCounters`,
  `MovingAverage`, `PendingRequests`, `StorageClient`, `QueueDrain`, `ClientRuns`,
  `ConcurrentCalls`): the breaker, the recovery manager, the request queue and the channel
  statistics as classes, each proved equal to a function of its whole log; the retry, degraded,
  unavailable and queue paths; the drain loop; concurrent sends as a state machine; and all of them
  together, over runs of calls and drains and over interleavings of calls.
- **Configuration** (`RedisConfig`, `RedisDocument`, `MemorySize`): the line parser and its printer,
  what a configuration text means, and memory sizes.
- **SCAN options** (`ScanParsers`, `ScanMeaning`): the two hand-written option parsers, and what
  options mean position by position.
- **Runtime manager** (`RuntimeManager`) and **command gates** (`CommandGates`).

`Text`, `Decimal`, `Clock`, `Naturals` and `Options` hold the vocabulary they share.

## Where the code differs from what one would expect

- The channel's pending counter is not the number of pending requests: the runtime records sent
  requests and timeouts but never a response. `PendingRequests.CounterLeaks` gives the run,
  `CounterKeepsFinishedCalls` the exact value, and with it the exact condition.
- The two SCAN parsers disagree: `ParsersDisagree` gives an input, and `ParsersAgree` proves that
  what the shared parser reads, SCAN reads if and only if every COUNT is at most 2^63 - 1.
- The recovery manager usually diverts calls before the breaker can open, but not always.
  `ClientRuns.BreakerUntilFirstAnswer` says exactly when it opens, `ZeroTimeoutsOpenTheBreaker` gives
  the run in which calls without time for a send open it while the manager is healthy, and
  `ConcurrentCalls.BoundIsReached` the run in which concurrent calls get furthest.
- A failed manager can have a start time, which no shutdown clears until it has run again.
  `RuntimeLifecycle.StartTimeSurvives` gives the run and `StaleExactly` the exact condition.
- A breaker threshold of 0 acts like 1, and a recovery threshold below 2 acts like 2. One success
  after trouble and one more make the manager healthy; the configured number of successes is never
  consulted, although a comment says it is (`src/common/runtime/message.rs:697`).
- A failed recovery send is recorded nowhere.
- High-priority requests are queued although the error says they cannot be
  (`src/common/runtime/message.rs:1288-1299`).
- The test of an empty value in the configuration parser can never fail.
- With both vector gates closed, the network path reports the cluster gate although the feature
  gate is the outer one; only direct execution reports the feature gate.

## Model

| member | source | states |
|---|---|---|
| `AttemptInvariant.MicroGuarantee` | src/common/runtime/baseline.rs:400-471 | whatever instruction a call executes, it takes no foreign lock, writes only while holding both locks, hands events over only while holding the dispatch lock, and never shortens a log |
| `AttemptRuns.LastTokenIsUnused` | src/common/runtime/baseline.rs:556-602 | when the last token is dropped, no call on that attempt is in progress on any thread |
| `AttemptRuns.StepKeepsInv` | src/common/runtime/baseline.rs:334-602 | every enabled step of the whole system keeps the protocol invariant |
| `AttemptRuns.RunKeepsInv` | src/common/runtime/baseline.rs:334-602 | so does every schedule, of any length, over any number of threads, attempts and handles |
| `AttemptTheorems.ReachableInv` | src/common/runtime/baseline.rs:294-317 | every state reachable from the empty system satisfies the invariant |
| `AttemptTheorems.EventsArePrefixOfWrites` | src/common/runtime/baseline.rs:400-471 | the observer has received, in order, a prefix of the attempt's writes; each starts where the one before it ended; the elapsed times add up; at rest the prefix is everything unless the handle is poisoned |
| `AttemptTheorems.SuccessWasObserved` | src/common/runtime/baseline.rs:400-471 | a transition that returned success made exactly the write it was asked for, and that event was delivered |
| `AttemptTheorems.RejectionWasReported` | src/common/runtime/baseline.rs:421-460 | a transition is called invalid only if it was illegal from the state it saw or the attempt was disarmed; it wrote nothing, and the violation was reported to the observer |
| `AttemptTheorems.FailuresPoisonTheHandle` | src/common/runtime/baseline.rs:187-193 | a call returns a poison or panic error only with a poisoned handle, and a reentrant orthogonal callback or final drop poisons it |
| `AttemptTheorems.OnlyTheLastWriteIsTerminal` | src/common/runtime/baseline.rs:97-118 | a chained history starts by leaving `Offered` and has no terminal state before its last write |
| `AttemptTheorems.OneFinalDrop` | src/common/runtime/baseline.rs:538-602 | the counter always equals the number of live tokens; exactly one drop is elected final, exactly when none is left, and it is the only call on its attempt |
| `AttemptTheorems.RetiredAttemptIsSettled` | src/common/runtime/baseline.rs:556-602 | once the last token is gone and its drop has returned, an accepted attempt has exactly one terminal write, its last, and a never accepted one has no write |
| `AttemptTheorems.GuardAssertionHolds` | src/common/runtime/baseline.rs:256-272 | the callback flag is set only by the holder of the dispatch lock, so entering the guard never finds it set |
| `AttemptTheorems.NestedCallNeverBlocks` | src/common/runtime/baseline.rs:228-254 | a call made from inside a callback never waits for a lock and never calls back |
| `AttemptTheorems.WaitPathsAreShort` | src/common/runtime/baseline.rs:334-471 | a chain of threads waiting for each other's locks has at most two links |
| `AttemptTheorems.NoDeadlockCycle` | src/common/runtime/baseline.rs:334-471 | threads never wait for each other in a circle, across all attempts and both locks |
| `AttemptTheorems.SomeoneCanMove` | src/common/runtime/baseline.rs:334-602 | while a call is in progress, some call can execute its next instruction |
| `AttemptTheorems.CallsFinish` | src/common/runtime/baseline.rs:334-602 | if no new call enters, every schedule of the calls in progress is finite, and one that cannot be extended has returned them all |
| `AttemptTheorems.RunIsLater` | src/common/runtime/baseline.rs:334-602 | along every run logs only grow, poison and disarming stay, and writes under poison are used up |
| `AttemptTheorems.PoisonStopsTheAttempt` | src/common/runtime/baseline.rs:400-535 | after the handle is poisoned the attempt makes at most one more write apart from the final drop's, only if a call was already past the check under the dispatch lock, and no call writing after that reports success |
| `AttemptTheorems.DisarmIsForever` | src/common/runtime/baseline.rs:334-358 | once a disarm returned true, the attempt stays `Offered` along every run and no transition ever succeeds |
| `AttemptTheorems.DisarmTooLate` | src/common/runtime/baseline.rs:334-358 | a disarm that returned false means the attempt had been accepted, and no disarm ever returned true |
| `AttemptProgress.UndisturbedTransition` | src/common/runtime/baseline.rs:400-471 | on an attempt at rest with an unpoisoned handle, a transition carried out undisturbed by an idle thread returns success if and only if it is legal; then its write is made and all writes are delivered, otherwise nothing is written and the violation is delivered; if the callback panics, the same is written and delivered, the call returns that panic and the handle is poisoned |
| `AttemptProgress.UndisturbedDisarm` | src/common/runtime/baseline.rs:334-358 | likewise a disarm returns true, and disarms, if and only if the attempt is not yet accepted |
| `AttemptProgress.UndisturbedOrthogonal` | src/common/runtime/baseline.rs:489-513 | likewise an orthogonal call makes its one callback and changes nothing else; if the callback panics, the call says so and the handle is poisoned |
| `AttemptProgress.UndisturbedFinalDrop` | src/common/runtime/baseline.rs:556-602 | likewise the drop of the last token abandons an accepted unfinished attempt, delivers that, and poisons the handle if the callback panics; any other attempt it leaves as it was |
| `AttemptProgress.ReentrantOnlyInsideCallbacks` | src/common/runtime/baseline.rs:334-407 | in every run, a transition or disarm is answered as reentrant only if at that step its own thread was inside a callback or a callback of its attempt was in progress |
| `AttemptProgress.TransitionAnswers` | src/common/runtime/baseline.rs:400-471 | in every reachable state with the handle unpoisoned, a transition that returned succeeded, was illegal, or was reentrant |
| `AttemptPoison.MarkedWillPoison` | src/common/runtime/baseline.rs:187-193 | in every run, a call about to mark its handle stays there until it has poisoned it |
| `AttemptPoison.PanicPoisons` | src/common/runtime/baseline.rs:505-533 | whatever other threads do, a callback that panics leads to a poisoned handle: nothing lies between the two but the marking itself |
| `AttemptPoison.NestedOrthogonalPoisons` | src/common/runtime/baseline.rs:489-496 | so does an orthogonal call made from inside a callback |
| `AttemptPoison.NestedDropPoisons` | src/common/runtime/baseline.rs:586-600 | and a final drop from inside a callback, when it would have to call back |
| `AttemptPoison.PoisonedExactly` | src/common/runtime/baseline.rs:489-602 | over every run, a handle is poisoned if and only if an earlier step marked it, in a call whose callback had panicked, or in an orthogonal call or final drop made from inside a callback of its own thread |
| `AttemptPoison.PoisonedCall` | src/common/runtime/baseline.rs:334-420 | on an attempt at rest with a poisoned handle, every transition, disarm and orthogonal call of an idle thread returns that it is poisoned and changes nothing |
| `AttemptLives.WritesAreALife` | src/common/runtime/baseline.rs:97-118 | the states any reachable attempt has written are a prefix of `ChannelQueued`, optionally `BatchQueued`, `WaitingGate`, `Running`, `ExecutionFinished`, followed at most by one rejection at shutdown, only before `Running`, or one abandonment, only of an accepted unfinished attempt; exactly finishing carries an outcome |
| `AttemptLives.EveryLifeIsPossible` | src/common/runtime/baseline.rs:97-118 | for each such sequence there is a run from the creation of an attempt in which every call succeeds, exactly these states are written and all are delivered |
| `CircuitBreaking.CircuitBreaker.constructor` | src/common/runtime/message.rs:318-326 | a new breaker is closed, without failures |
| `CircuitBreaking.CircuitBreaker.ShouldAllowRequest` | src/common/runtime/message.rs:329-346 | the answer, and the new state as one step of the breaker's run |
| `CircuitBreaking.CircuitBreaker.RecordSuccess` | src/common/runtime/message.rs:349-353 | one success step of the breaker's run |
| `CircuitBreaking.CircuitBreaker.RecordFailure` | src/common/runtime/message.rs:356-362 | one failure step of the breaker's run |
| `CircuitBreaking.StateOfLog` | src/common/runtime/message.rs:316-362 | over every log on a clock that never goes back: closed exactly while the failures since the last success are below the threshold, and otherwise opened at the last failure |
| `CircuitBreaking.AllowedExactly` | src/common/runtime/message.rs:329-346 | a request is allowed if and only if the current run of failures is shorter than the threshold or its last failure is at least the recovery timeout old |
| `RecoveryTracking.RecoveryManager.constructor` | src/common/runtime/message.rs:682-689 | a new manager is healthy |
| `RecoveryTracking.RecoveryManager.RecordSuccess` | src/common/runtime/message.rs:692-711 | one success step of the manager's run |
| `RecoveryTracking.RecoveryManager.RecordFailure` | src/common/runtime/message.rs:714-734 | one failure step of the manager's run |
| `RecoveryTracking.RecoveryManager.ShouldAttemptRecovery` | src/common/runtime/message.rs:737-748 | recovery is due exactly when unavailable and the last success, if any, is at least the delay old |
| `RecoveryTracking.StateOfLog` | src/common/runtime/message.rs:692-734 | over every log: the failure counter is the current run of failures, zero while recovering; the last success is remembered; the state is a function of the last success and the failures since |
| `RecoveryTracking.OutageFromFresh` | src/common/runtime/message.rs:714-734 | from fresh, `n` failures in a row lead to unavailable if and only if `n` is at least the larger of the threshold and 2, and one fewer leads to degraded |
| `RecoveryTracking.RecoveryIsDecidedAtOnce` | src/common/runtime/message.rs:692-734 | after any log, one failure while recovering means unavailable, and two successes in a row mean healthy |
| `RecoveryTracking.DueExactly` | src/common/runtime/message.rs:737-748 | after any log, recovery is due if and only if the shape of the log says unavailable and the last success, if any, is at least the delay old |
| `RequestQueueing.ExpiryRemovesAPrefix` | src/common/runtime/message.rs:636-640 | on a queue in time order the filter over all entries removes exactly the expired ones, and they are a prefix |
| `RequestQueueing.PurgeKeepsBalance` | src/common/runtime/message.rs:636-640 | removing expired entries keeps the books balanced and leaves no expired entry |
| `RequestQueueing.StepKeepsBalance` | src/common/runtime/message.rs:595-623 | so does every enqueue and dequeue |
| `RequestQueueing.QueueIsFifo` | src/common/runtime/message.rs:586-640 | over every run: timestamps in order, never above the maximum size, departures in order followed by the queue are exactly what was accepted, and a request leaves as expired exactly when it waited the maximum time |
| `RequestQueueing.AcceptedExactly` | src/common/runtime/message.rs:595-617 | a request is accepted if and only if fewer than the maximum number of those waiting have not expired |
| `RequestQueueing.ServedExactly` | src/common/runtime/message.rs:620-623 | a dequeue serves the longest waiting request that has not expired; if there is none it only removes the expired ones |
| `RequestQueueing.Retain` | src/common/runtime/message.rs:636-640 | the loop over the queue computes the filter |
| `RequestQueueing.RequestQueue.constructor` | src/common/runtime/message.rs:586-592 | a new queue is empty |
| `RequestQueueing.RequestQueue.RemoveExpired` | src/common/runtime/message.rs:636-640 | filtering the real queue is the purge of its ledger |
| `RequestQueueing.RequestQueue.Enqueue` | src/common/runtime/message.rs:595-617 | one enqueue step of the run; accepted exactly when the request joined the accepted ones |
| `RequestQueueing.RequestQueue.Dequeue` | src/common/runtime/message.rs:620-623 | one dequeue step of the run; the request returned is the newest departure, and none is returned only if the queue is empty |
| `ChannelCounters.MessageChannel.constructor` | src/common/runtime/message.rs:395-413 | all statistics start at zero |
| `ChannelCounters.MessageChannel.RecordRequestSent` | src/common/runtime/message.rs:449-470 | one step of the counters; a backpressure event exactly when the buffered requests reach their percentage of the buffer |
| `ChannelCounters.MessageChannel.RecordRequestReceived` | src/common/runtime/message.rs:473-476 | one step of the counters |
| `ChannelCounters.MessageChannel.RecordResponseSent` | src/common/runtime/message.rs:479-494 | one step of the counters, saturating at zero; the average moves by the floating-point expression, rounding at every operation, and is cut to a 64-bit integer |
| `ChannelCounters.MessageChannel.RecordTimeout` | src/common/runtime/message.rs:497-501 | one step of the counters, saturating at zero |
| `ChannelCounters.MessageChannel.RecordSendFailure` | src/common/runtime/message.rs:504-507 | one step of the counters |
| `ChannelCounters.PendingExactly` | src/common/runtime/message.rs:461-501 | over every log, in any order, pending is sent minus answered minus timed out, minus the lowest value that difference ever had |
| `ChannelCounters.MaximumExactly` | src/common/runtime/message.rs:461-470 | the recorded maximum is the largest value pending ever had |
| `ChannelCounters.PlainDifference` | src/common/runtime/message.rs:461-501 | if records never outrun the requests, pending is the plain difference |
| `ChannelCounters.CountersCount` | src/common/runtime/message.rs:449-507 | over every log, each other counter is the number of records of its kind, and the backpressure events the number of requests sent into a congested channel |
| `MovingAverage.SmoothedIsClose` | src/common/runtime/message.rs:479-494 | for every rounding with the relative error of double precision: the first time is the average, and each later one moves it a tenth of the way, rounded down, up to one part in 10^15 and saturation |
| `MovingAverage.AverageIsBetween` | src/common/runtime/message.rs:479-494 | for every rounding with the relative error of double precision: after any sequence of times the average is between their bounds up to two parts in 10^14 and ten nanoseconds, unless it saturated |
| `PendingRequests.RunKeepsMap` | src/common/runtime/message.rs:1045-1146 | every interleaving of sends keeps the receiver map in step with the calls |
| `PendingRequests.ReceiversAreExact` | src/common/runtime/message.rs:1045-1146 | the map holds exactly the ids of the calls between insert and remove, each with its own receiver; the "receiver not found" branch is never taken; without calls in progress the map is empty |
| `PendingRequests.RunKeepsCount` | src/common/runtime/message.rs:1045-1146 | every interleaving keeps the channel log equal to the calls in flight plus those answered or cut off by a closed channel |
| `PendingRequests.CounterKeepsFinishedCalls` | src/common/runtime/message.rs:1045-1146 | the pending counter is the number of calls in flight plus the number ever answered or cut off by a closed channel, so it is right if and only if there was none yet |
| `PendingRequests.CounterLeaks` | src/common/runtime/message.rs:1045-1146 | a run that ends with no call in progress and a pending counter of one |
| `PendingRequests.SendsAreRecordedOnce` | src/common/runtime/message.rs:1045-1146 | over every run, each send that went through, each broken send and each expired wait is recorded exactly once, unless its call is just about to |
| `StorageClient.SendWithRetries` | src/common/runtime/message.rs:946-1041 | for arbitrary outcomes and clock: at most `maxRetries + 1` sends, each with the time left; only the last may be delivered or be a storage error; one recovery record per send, exactly one breaker verdict equal to the reply, the reply of the last send; it gives up early only on a storage error or when time is over |
| `StorageClient.HandleDegradedStorage` | src/common/runtime/message.rs:1225-1265 | one to `min(maxRetries, 2) + 1` sends with the timeout capped at ten seconds, until one is delivered; one recovery record per send and none for the breaker |
| `StorageClient.QueueRequestForLater` | src/common/runtime/message.rs:1268-1305 | no send and one enqueue, whose effect on the queue is the queue's own step; always an error, which says full exactly when the queue without its expired entries is, and otherwise tells the priority |
| `StorageClient.HandleStorageUnavailable` | src/common/runtime/message.rs:1189-1222 | at most one send, exactly when the recovery manager says recovery is due, capped at five seconds; its success is recorded and returned; otherwise the request goes to the queue in the state it is then in |
| `StorageClient.SendRequestWithPriority` | src/common/runtime/message.rs:902-1042 | which of the four contracts a call meets, by the recovery manager and the breaker as it finds them; the breaker is not consulted while degraded or unavailable; what happens to the queue; and on the normal path the time of each send and why it gave up |
| `ClientRuns.CallKeepsTally` | src/common/runtime/message.rs:902-1042 | one unanswered call keeps the balance between the failures of the breaker, those of the recovery manager and the calls without a send |
| `ClientRuns.BreakerUntilFirstAnswer` | src/common/runtime/message.rs:902-1042 | over every run without an answer: the breaker has counted exactly the calls on the normal path, at most `max(T / 2, 1)` for recovery threshold `T` plus those without time for a send, and is closed if and only if they are fewer than its threshold |
| `ClientRuns.PatientClientsKeepTheBreakerClosed` | src/common/runtime/message.rs:902-1042 | so if every call has time for a send, a breaker with the higher threshold never opens before the first answer |
| `ClientRuns.ZeroTimeoutsOpenTheBreaker` | src/common/runtime/message.rs:946-1033 | for every setting, a run of calls without a timeout that opens the breaker while the recovery manager is as new |
| `ClientRuns.QueuedRequestsAreAccounted` | src/common/runtime/message.rs:1189-1389 | over every run of calls and drains, however the calls overlap, the calls told that there is no fallback are exactly the requests the queue accepted, in order; each is still waiting at its place, expired, or was served once; nothing else was served |
| `ConcurrentCalls.BreakerUnderConcurrency` | src/common/runtime/message.rs:902-1042 | the same in every interleaving of the lock sections of at most `w` calls at a time: at most `max(T / 2, 1) - 1 + w` verdicts apart from the calls without a send, and closed if and only if fewer verdicts than the threshold |
| `ConcurrentCalls.BoundIsReached` | src/common/runtime/message.rs:902-1042 | for every setting, a run on a clock that never goes back in which every call sends and that bound is met |
| `ConcurrentCalls.CallIsASchedule` | src/common/runtime/message.rs:902-1042 | every unanswered call of the client is a schedule of these lock sections with the same effect |
| `QueueDrain.OthersKeepBalance` | src/common/runtime/message.rs:1321-1330 | whatever other tasks do to the queue in between, the books stay balanced and only grow |
| `QueueDrain.TurnsKeepBalance` | src/common/runtime/message.rs:1321-1389 | after any number of turns of the loop, with other tasks in between, the books are balanced and nothing that had departed is lost |
| `QueueDrain.ServedInOrder` | src/common/runtime/message.rs:1321-1389 | each served request is the departure its own turn made, unexpired, at its place among the accepted; later turns serve later requests |
| `QueueDrain.Serve` | src/common/runtime/message.rs:1332-1384 | one response with the request's own id on its own channel; a send of the same command and priority if and only if more than 100 ms of its timeout are left, with exactly that time |
| `QueueDrain.ServeNext` | src/common/runtime/message.rs:1325-1386 | one turn is exactly one dequeue, and what it took is what was served |
| `QueueDrain.ProcessQueuedRequests` | src/common/runtime/message.rs:1321-1389 | against any concurrent use of the queue: the loop dequeues once per turn and nothing else, serves each request it dequeued exactly once, and makes at most ten sends; it goes on until ten sends, an empty queue, or the end of the turns it was given |
| `QueueDrain.DrainIsBounded` | src/common/runtime/message.rs:1321-1389 | it serves no more requests than were waiting at its start and arrived during its turns |
| `QueueDrain.DrainEnds` | src/common/runtime/message.rs:1321-1389 | so it ends: given more turns than requests that wait or arrive, it has made ten sends or its last dequeue found the queue empty |
| `RedisConfig.ParseRedisConfig` | src/conf/src/de_func.rs:103-131 | the loop computes the configuration of the text, or the first bad line with its number; what that configuration is, `RedisDocument` says |
| `RedisConfig.BadLineStops` | src/conf/src/de_func.rs:119-127 | what follows a bad line does not matter |
| `RedisConfig.ParseLineAccepts` | src/conf/src/de_func.rs:135-153 | a line with content parses if and only if it has an `=` or a space; the value test never rejects |
| `RedisConfig.AcceptsExactly` | src/conf/src/de_func.rs:103-153 | a text is accepted if and only if each line, without comment and surrounding space, is empty or has an `=` or a space |
| `RedisConfig.LastOneWins` | src/conf/src/de_func.rs:103-131 | a key has the value of the last line that sets it, and only keys that are set appear |
| `RedisConfig.ParsedIsClean` | src/conf/src/de_func.rs:103-153 | parsed keys and values are trimmed, hold no `#` and no line break, and keys hold no `=` |
| `RedisConfig.PrintedEntryReadsBack` | src/conf/src/de_func.rs:156-165 | one printed entry, even with an empty key or value, parses to itself |
| `RedisConfig.PrintParses` | src/conf/src/de_func.rs:103-165 | parse, print in any order, parse again: the same configuration |
| `RedisConfig.RedisConfigToIni` | src/conf/src/de_func.rs:156-165 | fails exactly when the parser does; its output is the printed entries in some order of all keys, and parses to the same configuration |
| `RedisDocument.EqualsIsRead` | src/conf/src/de_func.rs:135-141 | `key = value`, with any space or none around the equals sign, is that key and that value |
| `RedisDocument.BlankIsRead` | src/conf/src/de_func.rs:143-150 | `key value`, separated by any space with a blank in it, is that key and that value |
| `RedisDocument.LineIsRead` | src/conf/src/de_func.rs:106-129 | either form with space around it and a comment after it sets that key to that value; a line of space or comment sets nothing |
| `RedisDocument.DocumentIsRead` | src/conf/src/de_func.rs:103-153 | a text of any such lines is read as exactly its settings, the later ones overwriting the earlier |
| `RedisDocument.FirstBadLine` | src/conf/src/de_func.rs:119-127 | a text whose first line with content but without `=` or blank is line `n` fails with that number and that line |
| `RedisDocument.PrintedIsADocument` | src/conf/src/de_func.rs:156-165 | the printer writes the text that has, for each key in order, the line `key = value` with one blank on either side |
| `MemorySize.NumberEnd` | src/conf/src/de_func.rs:62-65 | one past the last digit, or zero without digits |
| `MemorySize.UnitScales` | src/conf/src/de_func.rs:80-92 | the letters B, K, M, G, T in either case, all but the first also followed by a B, and no unit at all for bytes, scale by the powers of 1024 from the zeroth |
| `MemorySize.KnownUnits` | src/conf/src/de_func.rs:80-92 | no other unit is known |
| `MemorySize.ShapeIsRead` | src/conf/src/de_func.rs:59-99 | a number, optional spaces and the unit of the `i`-th power denote the number times 1024 to the `i`, or the right error when number or product exceed 64 bits |
| `MemorySize.AcceptedHasShape` | src/conf/src/de_func.rs:59-99 | conversely, whatever is accepted has that shape, and is that number times 1024 to the `i` |
| `MemorySize.SizesAreExact` | src/conf/src/de_func.rs:59-99 | every number written in decimal with the unit of the `i`-th power, in any letter case, with commas anywhere and space around, denotes the number times 1024 to the `i`, or is out of range |
| `MemorySize.RefusedFor` | src/conf/src/de_func.rs:71-91 | the format is called invalid if and only if there is no digit, and a unit is called unknown only if it is none of those |
| `ScanParsers.ParseScanArgs` | src/cmd/src/scan.rs:37-82 | the loop computes the meaning of the arguments, pair by pair, or the first error; `ScanMeaning` says what that is |
| `ScanParsers.ParseScanOptions` | src/cmd/src/scan_options.rs:25-62 | the same for the shared parser |
| `ScanParsers.ParsersAgree` | src/cmd/src/scan.rs:37-82 | without TYPE, what SCAN reads the shared parser reads alike; conversely if and only if every COUNT is at most 2^63 - 1 |
| `ScanParsers.ParsersDisagree` | src/cmd/src/scan_options.rs:25-62 | COUNT 2^63 is read by the shared parser and refused by SCAN |
| `ScanParsers.ArgsRenderReadsBack` | src/cmd/src/scan.rs:37-82 | accepted arguments, written out again, are accepted with the same meaning |
| `ScanParsers.OptionsRenderReadsBack` | src/cmd/src/scan_options.rs:25-62 | the same for the shared parser |
| `ScanMeaning.ScanArgsExactly` | src/cmd/src/scan.rs:37-82 | accepted if and only if the cursor is an unsigned 64-bit number, names and operands alternate, every name is MATCH, COUNT or TYPE in any letter case, and every COUNT is a number from 1 to 2^63 - 1; each result is then the operand of the last option of its name, and absent without one |
| `ScanMeaning.ScanArgsError` | src/cmd/src/scan.rs:47-79 | otherwise the first bad option decides: a COUNT that is no signed 64-bit number is reported as such, everything else as a syntax error |
| `ScanMeaning.ScanOptionsExactly` | src/cmd/src/scan_options.rs:25-62 | the same for the shared parser, which knows MATCH and COUNT, the latter up to 2^64 - 1 |
| `ScanMeaning.ScanOptionsError` | src/cmd/src/scan_options.rs:34-59 | the first bad option decides: a COUNT with an operand is reported as no number, everything else as a syntax error |
| `RuntimeLifecycle.RuntimeManager.constructor` | src/common/runtime/manager.rs:88-116 | a new manager has no runtimes and holds one channel |
| `RuntimeLifecycle.RuntimeManager.Start` | src/common/runtime/manager.rs:125-222 | succeeds exactly when not running and both runtimes can be created; otherwise no runtime is left behind |
| `RuntimeLifecycle.RuntimeManager.StopBody` | src/common/runtime/manager.rs:225-279 | what a stop has done at each await it may be cut off at |
| `RuntimeLifecycle.RuntimeManager.Stop` | src/common/runtime/manager.rs:225-279 | afterwards not running and without runtimes, from every state |
| `RuntimeLifecycle.RuntimeManager.ForceShutdown` | src/common/runtime/manager.rs:358-376 | the same however the stop inside is cut off; a timeout ends in the failed state |
| `RuntimeLifecycle.RuntimeManager.InitializeStorageComponents` | src/common/runtime/manager.rs:420-457 | hands out the receiver exactly the first time, and changes nothing afterwards |
| `RuntimeLifecycle.RuntimeManager.CloseStorageRequests` | src/common/runtime/manager.rs:413-415 | drops the client and tells whether there was one |
| `RuntimeLifecycle.AlwaysSettled` | src/common/runtime/manager.rs:80-457 | between any two calls of any run: running exactly when both runtimes exist, start time and monitor as the state says, and the one receiver held or handed out once |
| `RuntimeLifecycle.CallsComeTo` | src/common/runtime/manager.rs:125-279 | after any run: a start that a runtime refuses leaves the manager failed and without runtimes, a successful one running since then; a stop that is not cut off leaves a running manager stopped and without a start time; a start of a running manager and a stop of any other change nothing |
| `RuntimeLifecycle.RunningSince` | src/common/runtime/manager.rs:125-222 | over every run, while the manager runs its start time is that of the last successful start, and it has run ever since |
| `RuntimeLifecycle.ClosedForGood` | src/common/runtime/manager.rs:413-457 | a closed storage client never comes back, whatever is started again |
| `RuntimeLifecycle.ShutdownKeepsStartTime` | src/common/runtime/manager.rs:225-279 | from every settled state, exactly when a stop or forced shutdown leaves a start time |
| `RuntimeLifecycle.StaleExactly` | src/common/runtime/manager.rs:358-376 | over every run, a manager that does not run has a start time if and only if a forced shutdown of the running manager was cut off before the stop changed anything, and it has not run since |
| `RuntimeLifecycle.StartTimeSurvives` | src/common/runtime/manager.rs:358-376 | such a run, which two further shutdowns do not mend |
| `CommandGates.CheckPreRoute` | src/cmd/src/table.rs:89-95 | through any nesting: passes if and only if no pre-route gate is closed, else the outermost closed one replies |
| `CommandGates.DoInitial` | src/cmd/src/table.rs:97-103 | through any nesting: the command's own check runs if and only if no initial gate is closed, else the outermost closed one replies |
| `CommandGates.DoCmd` | src/cmd/src/table.rs:105-107 | reaches the wrapped command through all gates |
| `CommandGates.Execute` | src/cmd/src/lib.rs:205-220 | wrong arity, outermost closed initial gate, or the command itself |
| `CommandGates.FirstClosed` | src/cmd/src/table.rs:84-107 | the error of the outermost closed gate of a kind, and none if and only if all of that kind are open |
| `CommandGates.ArityExactly` | src/cmd/src/lib.rs:231-238 | through any nesting: a positive arity demands exactly that many arguments, any other at least its negation |
| `CommandGates.CheckLeadership` | src/net/src/executor_ext.rs:77-106 | turns away writes and vector reads exactly when the node does not lead or the linearizable read fails |
| `CommandGates.TurnedAwayExactly` | src/net/src/executor_ext.rs:77-106 | a leader turns nobody away for leadership, only vector reads whose linearizable read failed; another node turns away exactly the writes and the six vector reads, with the leader's address; without a cluster nobody is turned away |
| `CommandGates.Dispatch` | src/net/src/executor_ext.rs:60-127 | the wrapped command runs if and only if arity fits, every gate is open and leadership allows it; pre-route gates win over leadership, and that over initial gates, however they are nested |
| `CommandGates.WrapGatedCmds` | src/cmd/src/table.rs:137-154 | each command wrapped in place |
| `CommandGates.RegisterGatedCmds` | src/cmd/src/table.rs:116-133 | the loop computes the registered table |
| `CommandGates.LastOfANameWins` | src/cmd/src/table.rs:116-133 | each name ends up with the gate around the last command of that name |
| `CommandGates.OthersStay` | src/cmd/src/table.rs:116-133 | all other entries stay and no other names appear |
| `CommandGates.RegisterVectorCmds` | src/cmd/src/table.rs:335-354 | a vector command is reachable exactly when enabled and allowed in the cluster, and which error each kind of check gives; the rest of the table stays |

## Left out

- AttemptTheorems.SuccessWasObserved: the racy previous state inside error values, trace identity, command labels and the debug-only state decoding are not modelled.
- AttemptTheorems.CallsFinish: assumes that the observer's own code returns; the model says nothing about the time a callback takes; orthogonal callbacks are counted, but what they report is not modelled.
- AttemptMachine merges the clock reading of a write with its store; all other loads, stores and lock operations are separate steps, in sequentially consistent order.
- ChannelCounters.PendingExactly: counters are unbounded, so wrap-around after 2^64 records is not modelled.
- MovingAverage.AverageIsBetween: the rounding is any with a relative error of at most 2^-53, so the exact digits that round-to-nearest gives are not modelled.
- StorageClient.SendWithRetries: retry delays and their jitter are not modelled; the clock reading of each attempt is arbitrary, so any delay is allowed.
- StorageClient.SendRequestWithPriority: error texts and the error log are left out, and so is the cancellation of a call.
- ClientRuns.BreakerUntilFirstAnswer: calls come one after the other; `ConcurrentCalls.BreakerUnderConcurrency` is the result for calls that overlap.
- PendingRequests.ReceiversAreExact: request ids are taken to be distinct, as random UUIDs are, and a call is not cancelled halfway.
- QueueDrain.ProcessQueuedRequests: nobody holds the receiving end of a queued request (it is dropped in `src/common/runtime/message.rs:1275`); the model proves what is sent, not that it arrives.
- RequestQueueing.QueueIsFifo: assumes the monotonic clock the standard library promises.
- RedisConfig: conversion from bytes and reading the file are left out; letters outside ASCII have no upper case in `Text.Upper`, which only changes error texts of `MemorySize`.
- ScanParsers: `usize` is taken to be 64 bits wide, and the scan itself, cursors and glob matching are not modelled.
- RuntimeLifecycle.RuntimeManager.New: the range checks of the configuration are not modelled, only that they can refuse it.
- RuntimeLifecycle.RuntimeManager.StopBody: a stop is cut off only by the timeout of a forced shutdown; the health monitor is a flag, and what happens inside the two runtimes is not modelled.
- CommandGates.Dispatch: the reply of the command itself is left out; the storage runtime is taken to use the same command table.
- Storage formats, Raft, RESP encoding, access control, vector search and the commands themselves are not part of this model.
