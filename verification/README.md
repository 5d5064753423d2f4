# Verified model of commons-mq-go

A Dafny model of the concurrent core of commons-mq-go, the Go library for IBM MQ:
the sender's connection pool, the listener, correlated request-reply, the retry
loops and client shutdown. IBM MQ and the contexts are the environment. A dial, a
put, a get or an open succeeds, fails with a return code, or is accepted while its
acknowledgement is lost, and a context can end at any moment.

Concurrent code is modelled as a transition system. `Next(s, step)` is one critical
section, channel operation, WaitGroup operation or MQ call of one thread. Runs are
sequences of steps (`Runs.Exec`), so every theorem about `Reachable` states or about
`Exec` holds for any number of threads and any interleaving. Code that changes
objects step by step is also given as classes whose methods are those sections.

| file | what it models |
|---|---|
| `Errors.dfy` | error trees, return-code classification, sanitizing |
| `Hex.dfy` | hex as in section 8 of RFC 4648 with Go's lowercase output; the 24-byte CorrelId and its three decoders |
| `FixedQueue.dfy` | the fixed-queue call and the routing of replies to many callers |
| `Registry.dfy` | the pending-reply registry |
| `Backoff.dfy`, `Connection.dfy` | capped exponential backoff, `dial` and the two retry loops |
| `SenderPool.dfy`, `SenderProtocol.dfy` | the Sender object; sends, probes and `close` interleaved |
| `SenderInvariants.dfy`, `SenderTheorems.dfy` | what every step keeps, and the promises |
| `SenderRecord.dfy` | what a send returns and puts on record, and what a probe sees |
| `SenderOutlook.dfy`, `SenderWaiting.dfy` | what a call can still do; when a waiting send can be served |
| `SenderCensus.dfy`, `SenderLeak.dfy` | when `close` can leave a connection open |
| `SenderWitnesses.dfy` | reachable states where the documentation fails |
| `ListenerProtocol.dfy`, `ListenerTheorems.dfy`, `ListenerProgress.dfy` | consumers, Start, `close` and the queue interleaved |
| `ListenerAnswers.dfy` | how a consumer answers to dials, breaks and redials, and to its handler |
| `Client.dfy`, `Shutdown.dfy` | Client.Close over opaque closers; a client with all its senders and listeners |
| `Health.dfy` | listener, request-reply and aggregate health |
| `ConnectionStates.dfy`, `Numbers.dfy`, `Counting.dfy`, `Runs.dfy` | shared definitions |

## Where the code departs from its documentation

The model follows the code.

- `close` of a sender reads its drain bound before it waits for sends
  (`mq/sender.go:298-302`). A send admitted earlier can create a connection after that,
  and it stays open (`ConnectionOutlivesClose`). `DrainLeavesExcess` counts what stays,
  and `LeakPossibleIff` says exactly when a run can end so (below).
- Discarding a connection wakes nobody. A send waiting for the pool can be left with no
  connection to come, and once the sender is closed `close` then waits for it for ever
  (`SendCanBeStranded`, `StrandedOnEveryRun`). `WaiterServedIff` says exactly when.
- `mq/types.go:22-24` says StateUnknown is never alive. The sender probe reports it alive
  exactly when the sender is open and `created` is not 0 (`UnknownReportedAlive`,
  `UnknownAliveIff`).
- `docs/go-09-advanced.md` gives the delay as a minimum. The code yields it exactly while the
  product stays below 2^63 (`FormulaHoldsIff`). With 40 attempts, 2 s doubling and a cap of
  30 s, the sleep after attempt 33 can collapse to 1 ms (`CapCanCollapse`).
- The comment on Client.Close says that it blocks until all work in flight returns. A second
  call returns nil while the first still runs closers (`SecondCloseReturnsEarly`). A call is
  sure to return only after every closer has run exactly when it finds the client open or
  finds that they all have (`CloseWaitsIff`). One level down this cannot happen: only the
  winning Close calls a component's `close`, once (`ComponentClosedOnce`).
- One stranded send keeps Client.Close from returning and every component registered before
  that sender from being closed (`ClientCanBeBlocked`, `StrandedSendBlocksClient`).
- Fixed-queue routing needs distinct keys and, with several callers, no all-zero key
  (`RoutingCorrectIff`).

## When `close` can leave a connection open

`SenderCensus.CanExceed` decides it from counts that can be read off any state in which
`close` waits for the sends in flight with bound `b`. A send counts as

- doomed, if its slot will be given up: discarding, uncounting, unreserving, or about to
  look at a context that has ended in one of the retry loops;
- deciding, if it stands at the creation decision with a live context, and lapsed with an
  ended one;
- looking, if it stands before its look into the pool with a live context;
- taking, if it waits at the pool, or is about to look into it with an ended context.

A probe on its way to the pool can also take one connection. Let `kept` be
`created - doomed + deciding`. A leak is possible exactly when `b < maxConns` and either
`kept > b`, or `kept + looking > b` still holds after one looking send is struck off for
each idle connection that nothing else can take. "Nothing else" includes lapsed sends
that can be made to wait because the limit fills up before them (`SenderCensus.Turned`).
With an empty pool and `b == created` this is: `created < maxConns`, and more sends can
still create than slots are doomed (`LeakPossibleIffEmptyPool`).

## Model

| member | source | states |
|---|---|---|
| `Errors.WrappingKeepsReturn` | mq/connection.go:303-315 | sanitizing and then wrapping to any depth, beside errors without return codes, finds the original return code |
| `Errors.WrappingKeepsClass` | mq/connection.go:223-315 | both classifications survive sanitizing and wrapping when no return code stands before the error and the first one after it, if any, is unclassified; they never overlap |
| `Errors.ClassOfReturn` | mq/connection.go:208-300 | under such a wrapping an MQ return is a connection error for exactly the eleven codes listed, and an empty queue for exactly 2033 |
| `Errors.KeepsClassIff` | mq/connection.go:223-315 | and only then: a wrapping keeps both classes of every error if and only if that holds |
| `Errors.KindFoundAnywhere` | mq/request_reply_tmp.go:123 | errors.Is finds a sentinel under any wrapping, at any depth and beside anything |
| `Errors.SanitizeLetsOnlyCodesThrough` | mq/connection.go:303-315 | an error with a return code passes unchanged; any other is replaced by one generic error, so none of its kinds survives |
| `Errors.OnlySilentContextsKeepReturns` | mq/connection.go:303-315 | a wrapping keeps the return code of every error if and only if nothing beside the path carries one |
| `Hex.EncodeSpells` | mq/listener.go:313-314 | byte i is spelled by lowercase digits 2i and 2i + 1, the high half first |
| `Hex.EncodeDecode` | mq/listener.go:313-314 | decoding an encoding gives the bytes back |
| `Hex.DecodeEncode` | mq/request_reply_fixed.go:58-68 | encoding a decoded ID gives it back in lowercase |
| `Hex.DecodesExactlyHex` | mq/request_reply_fixed.go:60-65 | decoding succeeds exactly on even-length strings of hex digits |
| `Correlation.PaddedIdIsCanonical` | mq/request_reply_fixed.go:66-67 | the padded bytes spell the ID in lowercase with zeros up to 48 digits |
| `Correlation.DecodersAgree` | mq/sender.go:197-202 | all three decoders give the same padded bytes on every valid ID |
| `Correlation.DecodersDiffer` | mq/request_reply_fixed.go:58-65 | without an ID the fixed-queue request keeps the generated bytes and the others put none; it refuses exactly the non-empty invalid IDs, which the others silently drop |
| `Correlation.CollideIff` | mq/request_reply_tmp.go:222-227 | two valid IDs share their bytes exactly when their canonical spellings are equal |
| `Correlation.CorrelIdSurvivesRelay` | mq/listener.go:309-320 | a CorrelId that a listener encodes and a sender or caller decodes is unchanged |
| `FixedQueue.PrepareCall` | mq/request_reply_fixed.go:38-112 | the CorrelId put on the request and the get filter are the same bytes: the generated ones if the creator blanks the ID, else those that spell its ID; refused exactly for a failing creator or an invalid ID |
| `FixedQueue.UntouchedIdIsGenerated` | mq/request_reply_fixed.go:47-67 | a creator that leaves the ID alone keeps the generated bytes |
| `FixedQueue.RepliesAnswerOwnRequest` | mq/request_reply_fixed.go:95-133 | with distinct keys every reply any caller gets, on any run with duplicates and losses, answers its own request |
| `FixedQueue.MessagesConserved` | mq/request_reply_fixed.go:95-133 | every request put is queued, with a replier, handled or expired; every reply put is queued, with exactly one caller, or expired |
| `FixedQueue.MisroutedRun` | mq/request_reply_fixed.go:110-124 | for any two callers with equal keys, or a zero key, a run that hands one the other's reply |
| `FixedQueue.RoutingCorrectIff` | mq/request_reply_fixed.go:28-134 | routing is right on all runs if and only if keys are pairwise distinct and none of several is all zero |
| `FixedQueue.RoutableByName` | mq/request_reply_fixed.go:38-68 | the same condition read off what the callers generate and what their creators make of it, blanked IDs included |
| `Registry.Registry.Register` | internal/correlation/registry.go:33-39 | a fresh empty channel becomes the ID's channel, replacing any other |
| `Registry.Registry.Deliver` | internal/correlation/registry.go:44-57 | fills the ID's channel if it is free and changes nothing else |
| `Registry.Registry.Deregister` | internal/correlation/registry.go:63-67 | removes exactly that ID |
| `Registry.RoutedById` | internal/correlation/registry.go:33-67 | distinct pending IDs have distinct channels, and every value held or received was delivered under its channel's ID |
| `Registry.DeliveriesConserved` | internal/correlation/registry.go:44-57 | deliveries that found a channel = in progress + held + received + dropped |
| `Registry.DeliveryOnEveryRun` | internal/correlation/registry.go:41-57 | once its lookup found a channel, on every run Deliver completes whenever it goes on, into that channel even if the ID was deregistered or registered anew, exactly when it is free, and touches no other |
| `Registry.FirstDeliveryWins` | internal/correlation/registry.go:51-57 | a held value stays until it is received, on every run |
| `Registry.RegisteredIsFound` | internal/correlation/registry.go:30-50 | from a Register on, until the ID is registered or deregistered again, every Deliver for it finds that new, empty channel, on every run |
| `Registry.DeregisteredIsIgnored` | internal/correlation/registry.go:41-67 | from a Deregister on, until it is registered again, a Deliver for the ID changes nothing, on every run |
| `Backoff.BackoffDuration` | mq/connection.go:49-55 | the loop computes initial times multiplier to the attempt; in range the result is that product rounded toward zero, and the initial interval for attempt 0 |
| `Backoff.OneFactorPerAttempt` | mq/connection.go:50-53 | the product starts at the initial interval and grows by one factor per attempt |
| `Backoff.CappedDelay` | mq/connection.go:36-42 | the delay is that value cut off at MaxRetryInterval |
| `Backoff.FormulaHoldsIff` | mq/connection.go:36-55 | the delay is min(product, cap) on every platform if and only if the product is below 2^63 |
| `Backoff.LoopInRangeIff` | mq/connection.go:90-106 | all delays of a loop of n attempts are in range iff the last one, after attempt n - 2, is |
| `Backoff.OutOfRangeSleepsOneMillisecond` | mq/connection.go:17-42 | where the conversion yields the smallest integer, every sleep out of range is 1 ms and jitter, whatever the cap |
| `Backoff.CapCanCollapse` | mq/connection.go:36-55 | a valid configuration and an attempt within its loop whose capped 30 s delay becomes 1 ms |
| `Backoff.DelaysGrowToCap` | mq/connection.go:36-42 | in range, delays never shrink and stay at the cap once there |
| `Backoff.SleepIsBounded` | mq/connection.go:17-33 | every sleep is positive and below M + max(M/10, 1), with M the larger of the cap and 1 ms, also out of range |
| `Backoff.SleepRange` | mq/connection.go:17-25 | the timers that can be drawn for a delay are exactly those from it, or from 1 ms if it is not positive, up to a tenth more |
| `Backoff.SleepWrapsIff` | mq/connection.go:25 | a timer can wrap to a negative value exactly when the largest sum does not fit in int64 |
| `ConnectionRetry.Connection.Dial` | mq/connection.go:114-161 | state, last error and result after one dial |
| `ConnectionRetry.Connection.Reconnect` | mq/connection.go:253-287 | the loop follows the dial schedule, disconnects once before each dial, and leaves the state that belongs to its end and the last dial's answer as last error |
| `ConnectionRetry.NewConnectionWithRetry` | mq/connection.go:84-110 | the loop follows the same schedule; a connection is returned exactly on success, and it is Connected |
| `ConnectionRetry.ScheduleShape` | mq/connection.go:263-282 | dials, sleeps and context checks of every run of the schedule |
| `ConnectionRetry.LogAlternates` | mq/connection.go:91-106 | event by event: dial i has the queue manager's answer, and the sleep after it lasts the documented delay of attempt i and up to a tenth more, or less if interrupted |
| `ConnectionRetry.ConnectsIff` | mq/connection.go:91-100 | success if and only if an attempt within the limit succeeds after failures only, its check seeing a live context |
| `ConnectionRetry.ExhaustsIff` | mq/connection.go:284-286 | exhaustion if and only if every attempt fails before the context ends |
| `ConnectionRetry.RetryContract` | mq/connection.go:245-287 | at most max(1, MaxRetries) dials, one sleep fewer than dials unless cancelled, Connected exactly on success, Failed after exhaustion, and after a cancellation Failed or, before any dial, Reconnecting |
| `ConnectionRetry.EndsTellApart` | mq/connection.go:92-109 | no error on success, the context's own after a cancellation, ErrConnectionFailed with the last dial's return code after exhaustion |
| `ConnectionRetry.ExhaustionKeepsClass` | mq/connection.go:108-109 | the exhaustion error is classified like the last dial's return code |
| `ConnectionRetry.TotalWaitIsBounded` | mq/connection.go:277-281 | a loop, cancelled or not, spends at most attempts - 1 bounded sleeps asleep, the part of an interrupted sleep included |
| `SenderPool.Sender.constructor` | mq/client.go:114-121 | an empty, idle pool of the given size |
| `SenderPool.Sender.TryReceive` | mq/sender.go:231-236 | takes the oldest idle connection if there is one |
| `SenderPool.Sender.Drain` | mq/sender.go:307-318 | the loop closes the oldest min(bound, idle) connections and keeps the rest in order |
| `SenderPool.Sender.Send` | mq/sender.go:68-159 | a whole send, built from the sections: for every combination of answers the error, the connection taken, dialled or waited for and whether it is given back or dropped, `created`, and the state and error left on record |
| `SenderPool.Sender.Close` | mq/sender.go:289-320 | a whole `close`, whatever the sends in flight leave: as many connections are closed as were created when it began, oldest first; the pool ends empty iff they left no more; a second call changes nothing |
| `SenderTheorems.StepsAreSections` | mq/sender.go:68-320 | every protocol step changes the Sender's own fields by exactly one critical section, channel operation, lock or unlock |
| `SenderInvariants.NextKeepsInv` | mq/sender.go:68-320 | every step of every send, probe and `close` keeps the whole invariant |
| `SenderTheorems.PoolAccounting` | mq/sender.go:222-284 | `created` = idle + checked out + being dialled + held by a probe + drained, within 0 and maxConns |
| `SenderTheorems.OneOwner` | mq/sender.go:222-284 | every connection has exactly one owner, on which pool and threads agree |
| `SenderTheorems.NoSharedHandle` | mq/sender.go:103-159 | no handle is held by two threads, or by a thread and the pool |
| `SenderTheorems.ReturningNeverBlocks` | mq/sender.go:280-284 | at every `pool <- conn`, in a send or a probe, there is room and the step is enabled |
| `SenderTheorems.SendOutcome` | mq/sender.go:103-159 | at most two puts, the second after a lost connection and a successful Reconnect; nil error iff the last put was acknowledged; the connection pooled or discarded exactly once; its error and the states it put on record as a function of what it met |
| `SenderTheorems.EarlyOutcome` | mq/sender.go:79-108 | a send without a put returned its dial's error, on record unless its context had ended; or the context's error after it ended; or ErrClientClosed when closed |
| `SenderRecord.AnswerIsReturned` | mq/sender.go:103-159 | on every run a send returns what it was told: the error of a failed dial, Reconnect, second put, or first put that kept the connection; nil for an acknowledgement; the context's error where it found that ended |
| `SenderRecord.LastAttempt` | mq/connection.go:91-106 | once the context has ended, the attempt under way is the last: if it fails the send returns the context's error and never gets that connection, on every run |
| `SenderRecord.MarksAreShown` | mq/sender.go:272-278 | every state and error a send records is shown by the sender in some state of the run |
| `SenderRecord.FailureIsShown` | mq/sender.go:112-141 | between losing its connection, or failing to get it back, and its return there is a state that shows Reconnecting or Failed with that very error, on every run |
| `SenderRecord.DialFailureIsShown` | mq/sender.go:246-256 | a dial that fails while the context lives is shown as Failed with its error before the send returns, on every run |
| `SenderRecord.AbandonedDialIsNoFailure` | mq/sender.go:248-255 | a dial given up because the context ended is never put on record, on any run |
| `SenderRecord.OthersRecord` | mq/sender.go:295-297 | nothing but a send changes the record, except the `close` that finds the sender open: Stopped and no error |
| `SenderTheorems.QueueGain` | mq/sender.go:110-158 | a successful send adds one copy, or two exactly when the first acknowledgement was lost; a failed one adds one per lost acknowledgement |
| `SenderTheorems.ProbeAnswersSnapshot` | mq/health.go:72-137 | the probe's answer, with its reason, is a function of its snapshot; the branches for contradictory snapshots are unreachable |
| `SenderRecord.ProbeSeesAMoment` | mq/health.go:78-90 | between its call and its answer there is a state in which the sender was as the snapshot says, on every run |
| `SenderTheorems.PooledConnectionsAreUp` | mq/health.go:107-127 | idle connections are Connected, closed ones Failed; an error is on record exactly in Reconnecting or Failed |
| `SenderTheorems.NoSendPastBarrier` | mq/sender.go:301-318 | once `close` drains no send is in flight, and while it drains no probe holds a connection |
| `SenderTheorems.NoSendAfterBarrier` | mq/sender.go:79-86 | and none is at any later state of any run |
| `SenderTheorems.DrainLeavesExcess` | mq/sender.go:298-318 | the drain closes min(bound, created); exactly the excess stays open; the pool ends empty iff created is within the bound |
| `SenderTheorems.QuietCloseEmptiesPool` | mq/sender.go:289-320 | if no send stands before its creation decision when the bound is read, every run of that `close` empties the pool |
| `SenderTheorems.WaitingStartsAtLimit` | mq/sender.go:238-264 | a send starts to wait only with created == maxConns |
| `SenderOutlook.NeverStuck` | mq/sender.go:103-159 | in every reachable state a send in flight has an enabled step unless it waits with a live context at an empty pool, and then it has none; the holder of poolMu always has one |
| `SenderOutlook.OthersBlockOnlyOnLocks` | mq/health.go:105-127 | a probe or `close` that cannot move is over, or waits for a poolMu holder that can move, or is `close` waiting for a send in flight |
| `SenderWaiting.WaiterProspects` | mq/sender.go:262-269 | until `created` goes down, idle connections + slots that can still yield one + doomed slots = maxConns |
| `SenderWaiting.ProspectServes` | mq/sender.go:262-284 | from every reachable state, a run on which any given prospect's connection, or an earlier one, reaches the waiting send |
| `SenderWaiting.StrandedOnEveryRun` | mq/sender.go:301-302 | closed, nothing idle and no productive thread: nothing but its own context ever releases the waiting send, and `close` never passes its wait, on any run |
| `SenderWaiting.WaiterServedIff` | mq/sender.go:263-269 | in every reachable state a send that waits with a live context can be served iff the sender is open, or a connection is idle, or some thread is productive |
| `SenderLeak.LeakPossibleIff` | mq/sender.go:289-320 | in every reachable state with `close` waiting for sends: some run ends with a connection open in the pool iff the census of the calls lets `created` end above the bound |
| `SenderLeak.LeakPossibleIffEmptyPool` | mq/sender.go:298-302 | bound just read and no connection idle: iff created < maxConns and more sends with a live context stand before their creation decision than slots are doomed |
| `SenderWitnesses.ConnectionOutlivesClose` | mq/sender.go:298-302 | a reachable state with `close` finished and a connected connection in the pool |
| `SenderWitnesses.SendCanBeStranded` | mq/sender.go:117-120 | a reachable state with an empty pool, no productive thread, a live waiting send and a waiting `close` |
| `SenderWitnesses.UnknownReportedAlive` | mq/health.go:128-133 | a reachable answer Alive for StateUnknown with no connection dialled |
| `SenderWitnesses.UnknownAliveIff` | mq/types.go:22-24 | a probe that saw StateUnknown answers alive iff the sender was open with created not 0 |
| `ListenerTheorems.StatesFollowArrows` | mq/listener.go:173-232 | a consumer's states follow the allowed arrows, and Stopped and Failed are final |
| `ListenerTheorems.ErrorSendNeverBlocks` | mq/listener.go:126-136 | no consumer blocks on the error channel |
| `ListenerTheorems.JoinedErrorsAreFailures` | mq/listener.go:139-146 | Start joins exactly one error per consumer that ended Failed; the others ended Stopped |
| `ListenerTheorems.CancellationIsClean` | mq/listener.go:99-100 | if no consumer failed before the context ended, none ever does and Start returns nil |
| `ListenerAnswers.AnswerDecides` | mq/listener.go:195-231 | on every run on which the context lives: after a good dial or redial the next state is Connected; after a break of the connection Reconnecting; after a failed dial or redial or any other break Failed, and the consumer ends with exactly that error; one that goes on ends only with a later error |
| `ListenerAnswers.EndsAsTold` | mq/listener.go:173-232 | a consumer that is over has shown exactly the story of its answers and ended with the error of the last one, or without one because its context ended |
| `ListenerAnswers.EmptyQueueIsNoBreak` | mq/listener.go:265-268 | an empty queue sends the consumer back to its poll and changes nothing else |
| `ListenerAnswers.HandlerResultIsRecorded` | mq/listener.go:280-286 | what is on record for a message is its handler's nil, its own error, or ErrHandlerPanic for a panic, on every run |
| `ListenerTheorems.RefusalsAreTrue` | mq/listener.go:107-124 | ErrClientClosed only when closed, "only once" only when another Start got through; the one that ran has ended its context |
| `ListenerTheorems.SpawnedAtMostOnce` | mq/listener.go:106-137 | no overlap of Start and `close` spawns a consumer twice |
| `ListenerTheorems.StartAfterClose` | mq/listener.go:107-111 | a Start that comes to its check after `close` never runs and returns only ErrClientClosed, on any run |
| `ListenerTheorems.NoConsumerAfterClose` | mq/listener.go:151-169 | after the first `close` returned no consumer runs, then or at any later state |
| `ListenerTheorems.MessagesConserved` | mq/listener.go:251-287 | put = queued + fetched + in a handler + handled + lost in a broken get, each message in one place |
| `ListenerTheorems.AtMostOnceDelivery` | mq/listener.go:264-280 | no handler call for a queued, lost or merely fetched message, exactly one from the call on, across consumers, failures and reconnects |
| `ListenerTheorems.OneHandler` | mq/listener.go:251-287 | no message is in the hands of two consumers |
| `ListenerTheorems.FetchedOnEveryRun` | mq/listener.go:264-286 | on every run from its fetch, a message stays with its consumer until it is done with; its handler is called once before that consumer polls again, and a failure is reported once, also after cancellation |
| `ListenerTheorems.FailuresReportedOnce` | mq/listener.go:280-286 | a finished message has a nil result and no report, or an error and one report, or an error whose report is its consumer's next step |
| `ListenerTheorems.HandlerNeverStopsConsumer` | mq/listener.go:280-287 | whatever the handler returned, at the step that settles the message the consumer is back at its poll and has shown no other state, on every run |
| `ListenerProgress.NeverStuck` | mq/listener.go:173-288 | in every reachable state a consumer has a step iff it was spawned and is not over |
| `ListenerProgress.CancelledConsumerIsSoonOver` | mq/listener.go:208-288 | after the context ended a running consumer takes at most seven more steps on every run, and after seven it is over |
| `ListenerProgress.StartCanReturn` | mq/listener.go:106-147 | once the context has ended, every reachable state has a run on which a given Start returns |
| `ListenerProgress.CloseCanReturn` | mq/listener.go:151-169 | every reachable state has a run on which a given `close` returns |
| `Client.Client.Register` | mq/client.go:74-78 | appends a closer |
| `Client.Client.Close` | mq/client.go:50-69 | runs the registered closers in reverse order once and joins their errors; a later call runs none and returns nil |
| `Client.JoinHoldsAll` | mq/client.go:59-68 | the joined error holds the error of every closer that failed, in the order they ran, and nothing else |
| `Client.CloseContract` | mq/client.go:50-69 | over all interleavings, registered = batch + still listed; the winning Close runs its batch from the last position down, each exactly once by its return, is non-nil iff a closer failed, and every other Close returns nil |
| `Client.LateClosersNeverRun` | mq/client.go:56-78 | from the moment a Close wins, on every run: its batch is what was registered by then, and no position registered later ever runs or leaves the list |
| `Client.WinnerFinishes` | mq/client.go:61-68 | the winner completes in one step per closer left and one more, with the joined result |
| `Client.SecondCloseReturnsEarly` | mq/client.go:51-55 | a reachable state in which a second Close has returned nil and the first still has a closer to run |
| `Client.CloseWaitsIff` | mq/client.go:42-55 | every run on which a Close has returned has run all closers iff that Close finds the client open, or finds that they all have run |
| `Shutdown.CloseLeavesAllAtRest` | mq/client.go:42-69 | when the winning Close has returned, no send of any sender in its batch is in flight, no consumer of any listener in it runs and its request-reply clients are closed, on every run from there |
| `Shutdown.ClosesOneAtATime` | mq/client.go:61-67 | while it runs, components above the current position are at rest and those below have not been asked to close |
| `Shutdown.ComponentClosedOnce` | mq/client.go:99-125 | each sender's and listener's `close` runs at most once and never finds its component closed |
| `Shutdown.StrandedSendBlocksClient` | mq/client.go:61-67 | with a stranded send in a batch sender, on every run until its context ends, Close does not return and no earlier component is asked to close |
| `Shutdown.ClientCanBeBlocked` | mq/client.go:50-69 | a reachable world in which that is so |
| `Health.Listener.constructor` | mq/listener.go:88-93 | every slot starts as StateUnknown |
| `Health.Listener.SetConsumerState` | mq/listener.go:291-295 | one slot changes; an index out of range changes none |
| `Health.Listener.Probe` | mq/health.go:142-169 | one entry per consumer, alive iff the listener is open and that slot was Connected at the moment of its load, with the reason otherwise, while consumers go on storing |
| `Health.UntouchedSlot` | mq/health.go:150-151 | a slot nobody writes during the probe is reported as it was at its start |
| `Health.RequestReplyClient.RecordState` | mq/request_reply_tmp.go:106-140 | the recorded state is that of the last call |
| `Health.RequestReplyClient.Close` | mq/request_reply_tmp.go:145-150 | marks the client closed |
| `Health.RequestReplyClient.Probe` | mq/health.go:173-213 | no entry before the first call; then alive iff open and the last call replied, or erred with a timeout or no connection code; else dead with that call's own error |
| `Health.Aggregate` | mq/health.go:23-56 | entries in order, the client's own first when closed, healthy iff all are alive |
| `Health.FlattenConcatenates` | mq/health.go:30-33 | the entries are those of each prober after the other |

## Left out

- The IBM MQ binding: Connx, Open, Put, GetSlice and Disc are choices of the environment. A get removes a message atomically, a CorrelId filter matches exactly (an all-zero filter matches everything), and an acknowledgement is lost only with a connection error.
- OpenTelemetry, TLS, credentials, message TTL, reply-to fields and the wording of errors and reasons.
- Configuration defaults and validation: a concurrency of at least 1, a multiplier of at least 1 and positive intervals are taken from `mq/config.go`.
- Floating-point rounding in BackoffDuration, and NaN multipliers: the product is a real, and an out-of-range conversion is an arbitrary int64.
- SenderPool.Sender.Send: takes what a wait ends with from its environment, because a method cannot block; waiting and interleaving are in `SenderProtocol.dfy`.
- SenderPool.Sender.Close: takes what the sends in flight leave from its environment, for the same reason.
- Start, runConsumer and consumeLoop are transition systems on values, not methods: interleaving is the point there.
- The temporary-queue request beyond its CorrelId decoding: it owns its reply queue, so nothing is routed.
- The lock of a connection: its own state changes happen in the same step as the Sender's next to them. Nobody else sees a connection that is checked out.
- The error that a sender's `close` returns: the drain loop closes each connection whatever the others return, and the joined error has no effect on what stays open.
- The error callback of a listener for errors without a message; a callback that panics is recovered, as `reportError` does, and an absent one counts as called.
- A failing random source in a fixed-queue call and the early checks of RequestReplyWithCreator: both return before anything is sent.
- Fairness and real time: nothing is claimed about when a step happens.
- Panicking message creators and handlers that never return or call Client.Close.
- `mq/queue_customizer.go`, the examples and the benchmarks hold no property worth stating.
