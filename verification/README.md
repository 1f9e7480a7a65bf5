# Sprout runtime: scheduler, poller and arithmetic cores

A Dafny model of the Sprout language's runtime cores, with proofs of what their comments argue
for. The cooperative scheduler is the main part; six smaller algorithms follow.

## The scheduler

`runtime/sprout_scheduler.c` runs green tasks on one thread: a ready queue, a list of tasks
parked in the poller, structured scopes with spawn, fork, await, join and cancel,
`with_timeout`, bounded and rendezvous channels, and `select`. It is modelled three times over.

* **Steps.** `SchedState` has the records as values. `SchedSteps` has every builtin as a
  function on states, cut in two where the code switches to the pump. A step ends in `Next`, in
  `Abort` where the code calls `sprout_fail`, or in `Fault` where the code would be undefined: a
  second push of a queued task, a pointer to a freed record, a timer torn down twice, and so on.
  `SchedMachine` says which step may be taken when, and a run is a list of steps.
* **Code.** `SchedCode` has the globals as fields of a class and the functions as methods that
  reassign them, with the loops of the source. Each method is proved to do its step, and
  `SchedCodeRuns.Step` that this never faults from a state of a run.
* **Structures.** `Queues` has the intrusive linked lists with their pointers, `ChanRing` the
  growable ring in its array, `HandleTable` the generation-checked handles with the free list.

`SchedInvariant` is the invariant, in parts: queue flags equal membership, where each task is,
what each suspended task waits for, the poller's registrations, scopes and their nesting, and
channels. `SchedCore`, `SchedLife`, `SchedJoin` and `SchedChans` say how its parts move;
`SchedPollOps` to `SchedCloseOps` prove each builtin; `SchedRuns` puts them together for every
run. What that means for a caller is in `SchedTheorems`, `SchedReturns`, `SchedDelivery`,
`SchedCancel`, `SchedClosing` and `SchedTurns`; `SchedNews` follows a wake to the return it
causes, and `SchedResults` a result to the awaits that read it. `SchedEffects` gathers them: when
each step of the machine ends the process, and what it does when it goes on. `SchedFlow` and
`SchedFifo` have the order of values on channels and what can go missing; `SchedPoller` shows
that the poller of `WinPoller` is one the steps may be run with.
The theorems are about any state that satisfies the invariant, which is every state of every run.

Some fields are history variables that no step branches on: the log and the deliveries of a
channel, the ticket of a message, the open scopes of a task, the parent, level and ancestors of
a scope, and whether a deadline's timer was harvested.

The poller is abstract there: it holds descriptor and timer registrations, reports any batch of
them without repeating one, may reuse a timer id once the timer is removed, and forgets an event
whose registration is removed (`runtime/sprout_scheduler.h:81-110`).

### What callers must respect

The code relies on these without checking them; `SchedMachine.CallerOk` states them.

* A task has at most one awaiter at a time.
* A task is awaited only from inside the scope it was forked into. `SchedGuard` has a run that
  breaks only this rule and then reads a freed record.
* A scope is joined by its owner, innermost first; a task spawns only into scopes around it; a
  task ends with no scope open.
* A task that a cancel or an expired deadline drops has no inner scope open, unless it is itself
  a deadline owner, which the code refuses to drop.
* `with_timeout` is called by the owner of a scope on a live child of it.
* One task at a time waits on a descriptor.

Under these, `SchedRuns.EveryRunSafe` holds for every run that has not aborted.

## The other cores

* `P256`: the limb-level Montgomery arithmetic that `scripts/gen_p256_felem.py` emits, with its
  64-bit operations in `LimbWords`.
* `WinPoller`: the deadline heap and socket table of the Windows poller.
* `AStar`: A* over any maze, with both insertions into the open set.
* `NQueens`: three counts of the same boards.
* `MergeSort`: the bottom-up merge sort between two buffers.
* `Utf8`: the plain-text test, against RFC 3629.

`Common` has options and facts about sequences.

## Where code and comments differ

The model follows the code in both.

* `runtime/sprout_scheduler.c:795-800` says a task to be dropped is still on the poller list.
  The code also drops tasks parked on a channel or in a select.
* `runtime/sprout_scheduler.c:823-825` says a select-parked task is on a channel's select queue
  at most once. The registration loop at lines 1470-1477 puts one entry per position of the list,
  so a channel listed twice holds two; lines 917-919 know this.

## Model

| member | source | states |
|---|---|---|
| SchedRuns.InitInv | runtime/sprout_scheduler.c:643-682 | The state the constructor leaves satisfies the invariant: task 0 runs in no scope, and there is no scope, channel, queue entry, timer or descriptor. |
| SchedRuns.StepSafe | runtime/sprout_scheduler.c:526-1492 | From any state that satisfies the invariant, no enabled builtin, continuation, pump turn or poll batch is undefined, and each keeps the invariant or ends the process. |
| SchedRuns.EveryRunSafe | runtime/sprout_scheduler.c:395-410 | In no legal run from the start is a queued task pushed again, a freed record followed, a timer or descriptor of another task torn down, a record unlinked from a list it is not on, a stack destroyed twice, a live task freed, an empty delivery consumed, or a re-read-the-head loop stuck; the state reached satisfies the invariant. |
| SchedEffects.StepAborts | runtime/sprout_scheduler.c:526-1492 | From any state that satisfies the invariant, each enabled step ends the process exactly when it is refused, and otherwise goes on; per operation the refusal is a condition on its arguments and the tables, such as a missing record, a timer that cannot be armed, a closed channel, a victim that is awaited, or a task parked on a channel of the scope joined. |
| SchedEffects.StepDoes | runtime/sprout_scheduler.c:526-1492 | Each step that goes on has the effect its operation is for, to the caller, to those it wakes or drops, and on everyone and everything else, which stays as it was: one statement over all builtins, continuations, turns and batches. |
| SchedTheorems.ReachableInv | runtime/sprout_scheduler.c:395-410 | Every state that some legal run reaches satisfies the invariant, which is all that the results below ask of a state. |
| SchedTheorems.DeadlockStops | runtime/sprout_scheduler.c:534-588 | The pump gives up exactly when nobody is ready or parked in the poller, which is exactly when every task that has not ended is on a channel or waits for a task or a scope. |
| SchedTheorems.ExactlyOnePlace | runtime/sprout_scheduler.c:110-118 | A live task is in exactly one of: running, ready queue, poller list, channel queues, await/join link; the two lists have no duplicates. |
| SchedTheorems.EndedNowhere | runtime/sprout_scheduler.c:801-877 | A finished or dropped record is in none of those places, and nobody awaits or waits for it and no timer or descriptor is registered for it. |
| SchedTheorems.WakeSources | runtime/sprout_scheduler.c:138-144 | Per kind of park, exactly which registrations and links can wake a suspended task: one, or two for a bounded descriptor wait and for a deadline owner. |
| SchedTheorems.RunningPlace | runtime/sprout_scheduler.c:544-554 | A task running its own code holds no timer, no descriptor and no link, and is on no queue. |
| SchedTheorems.ArmedTimer | runtime/sprout_scheduler.c:101-107 | An armed timer is the only one of its task, is the one its record names, is not marked torn down, and its task is still inside the call that armed it. |
| SchedTheorems.LiveCounts | runtime/sprout_scheduler.c:47-58 | live is the number of the scope's tasks that are neither done nor dropped, and the fork list is exactly its awaitable tasks, each once. |
| SchedTheorems.ChannelStates | runtime/sprout_scheduler.c:1239-1247 | The count is at most cap; parked senders mean a full ring and no receivers or selects; parked receivers or selects mean an empty ring and no senders; a closed channel has three empty queues. |
| SchedPollOps.DispatchSafe | runtime/sprout_scheduler.c:402-410 | The pump switches to exactly the head of the ready queue, and gives up exactly when nobody is ready; nothing else moves. |
| SchedPollOps.HarvestSafe | runtime/sprout_scheduler.c:541-568 | A whole poll batch, in any order and with both registrations of one task in it, is handled without a second push or a second teardown. |
| SchedReturns.EventEffect | runtime/sprout_scheduler.c:543-566 | One event takes exactly its own registration out; it moves its task to the ready queue, and tells it whether a timer woke it, only if the task is still on the poller list; no other record changes. |
| SchedReturns.BatchWakes | runtime/sprout_scheduler.c:541-568 | A batch appends to the ready queue each suspended task it names, once, in order of first mention, tells each whether its first event was its timer, and removes exactly the registrations it reports. |
| SchedPollOps.ParkOnFdSafe | runtime/sprout_scheduler.c:1110-1121 | A park on a free descriptor registers it for the task, which goes to the head of the poller list; nothing else changes. |
| SchedPollOps.ParkOnFdTimeoutSafe | runtime/sprout_scheduler.c:1135-1154 | A park on a descriptor and a timer registers exactly both; when the timer cannot be armed nothing is registered and false is returned at once. |
| SchedPollOps.ResumeFdTimeoutSafe | runtime/sprout_scheduler.c:1155-1163 | Retiring the loser of a bounded wait never touches a registration that is not the task's own. |
| SchedReturns.BoundedWaitReturns | runtime/sprout_scheduler.c:1135-1163 | The bounded wait returns false exactly if the record says a timer woke it (SchedNews.TimedWaitAnswers ties that to the batch); neither registration survives it; when the timer fired, nothing is left to disarm. |
| SchedPollOps.SleepSafe | runtime/sprout_scheduler.c:1205-1230 | A timed sleep arms its timer and puts the task at the head of the poller list, and aborts exactly when no timer can be armed. |
| SchedReturns.PlainReturns | runtime/sprout_scheduler.c:1219-1230 | A sleeper that was woken, and a task woken from a plain wait for a descriptor, always returns: it runs, holds no timer and no descriptor, and nothing else has changed. |
| SchedPollOps.YieldSafe | runtime/sprout_scheduler.c:1050-1054 | A yield never aborts: the task goes behind everyone who is ready, and nothing else changes. |
| SchedTurns.StepQueue | runtime/sprout_scheduler.c:395-410 | The pump takes the head of the ready queue; every other step leaves the queue as it is or adds at its tail, and leaves what the other ready tasks were told: delivery, close flag, fired index, timer flag and where they continue. |
| SchedTurns.StepFrame | runtime/sprout_scheduler.c:526-1492 | In every step, the record of a task other than the caller keeps its call, result, end, scope and what it was told, unless that step makes it ready or drops it; a scope that stays keeps its owner and every fork it has, and no scope comes back. |
| SchedTurns.MovesUp | runtime/sprout_scheduler.c:402-410 | In any run, a ready task is nearer the head by the number of pump turns, whatever else happened. |
| SchedTurns.RunsInTurn | runtime/sprout_scheduler.c:534-574 | In any run, a ready task is started by exactly the turn after as many as there were tasks ahead of it, with what it was told when it was made ready. |
| SchedNews.TurnAnswers | runtime/sprout_scheduler.c:1135-1163 | A ready task is started at its turn, and whatever call it was parked in then answers with what its record said when it was made ready, whatever ran in between: a receive, select, send, sleep, wait for a descriptor, await, join or deadline. |
| SchedNews.CarriedAnswers | runtime/sprout_scheduler.c:570-588 | For each kind of park, what the resumed call does: what it returns and what it leaves unchanged, or exactly when it ends the process. |
| SchedNews.TimedWaitAnswers | runtime/sprout_scheduler.c:541-568 | After any run up to its turn, a bounded wait returns true if the first event of its batch was its descriptor, and false if it was its timer. |
| SchedScopeOps.ScopeOpenSafe | runtime/sprout_scheduler.c:684-694 | The handle returned names a scope that was not there: owned by the caller, innermost of its open scopes, with nothing live, no forks, no waiter and no reason; everything else stays as it was. |
| SchedScopeOps.SpawnSafe | runtime/sprout_scheduler.c:700-770 | Spawn and fork keep the invariant, and abort exactly on a scope that does not exist. |
| SchedScopeOps.SpawnStarts | runtime/sprout_scheduler.c:733-769 | The new task has an id never used, is alive, at the tail of the ready queue, in its scope; live rises by one, and exactly a forked task is linked at the head of the fork list and its handle returned; nothing else changes. |
| SchedScopeOps.AwaitSafe | runtime/sprout_scheduler.c:776-793 | An await is safe when the task has no other awaiter and was forked into a scope around the caller; it aborts exactly on a task that does not exist, cannot be awaited or was dropped. |
| SchedScopeOps.ResumeAwaitSafe | runtime/sprout_scheduler.c:789-792 | An awaiter that runs again finds its task done and its record still there. |
| SchedReturns.AwaitReturns | runtime/sprout_scheduler.c:776-793 | The value an await returns after a park is the result its task ended with, and the awaiter is left with no link, timer or descriptor. |
| SchedReturns.AwaitAtOnce | runtime/sprout_scheduler.c:776-793 | An await of a done task returns its result without parking; otherwise the caller is parked on that task's link alone; nothing else changes. |
| SchedFinish.FinishSafe | runtime/sprout_scheduler.c:593-638 | The end of a task never aborts and never wakes a task that is already runnable. |
| SchedReturns.FinishWakes | runtime/sprout_scheduler.c:593-638 | The end of a task appends exactly its sleeping awaiter and, when it was the last of its scope, the joiner; live falls by one; the result is kept exactly when the task can be awaited; nobody else changes. |
| SchedResults.StepKeepsResult | runtime/sprout_scheduler.c:593-603 | In every step a task that has ended keeps its record and its result while its scope is there. |
| SchedResults.RunKeepsResult | runtime/sprout_scheduler.c:776-793 | In every run it keeps them until its scope is joined. |
| SchedResults.ResultArrives | runtime/sprout_scheduler.c:776-793 | What a forked task ends with is what every await of it returns, at once, after any run that has not joined its scope. |
| SchedGuard.OutsideAwaitDangles | runtime/sprout_scheduler.c:776-793 | A concrete legal run followed by an await from outside the fork's scope, after which the awaiter reads a freed record: the rule that awaits come from inside the scope is needed. |
| SchedDeadline.AwaitDeadlineSafe | runtime/sprout_scheduler.c:948-968 | Arming the deadline and parking on it and on the child keeps the invariant, with the timer armed and the child linked; it aborts exactly on a missing scope or child, a child that cannot be awaited, or a timer that cannot be armed. |
| SchedDeadline.ResumeDeadlineSafe | runtime/sprout_scheduler.c:970-1044 | Every turn of the classification loop is defined, whatever the order of child completion, timer harvest and same-batch readiness. |
| SchedTheorems.DeadlineReturns | runtime/sprout_scheduler.c:948-1044 | A woken owner goes on exactly if its child is done, can be dropped or is ready, and the process ends otherwise. In the first two cases it returns: true exactly if the child is done; false only after the timer was harvested, with the child dropped and the scope marked timed out. Then the owner is on no queue, is nobody's awaiter and has no timer, and no other task has changed. |
| SchedTheorems.DeadlineYields | runtime/sprout_scheduler.c:1010-1037 | With the child ready, which is then not done, the owner goes to the end of the ready queue, behind it, to classify again; nothing else changes. |
| SchedDrop.DeregisterSafe | runtime/sprout_scheduler.c:816-849 | Taking a suspended task off whatever it is parked on removes its registrations everywhere and nothing of any other task. |
| SchedDrop.ForceDropSafe | runtime/sprout_scheduler.c:801-877 | A drop of a suspended task is defined, aborts exactly when it is awaited by another or owns a deadline, and otherwise changes only the task, its registrations and its scope's live count. |
| SchedCancel.CancelListSafe | runtime/sprout_scheduler.c:894-898 | A walk that saves the next link before each drop drops every victim on the list once and no one else. |
| SchedCancel.CancelSelectSafe | runtime/sprout_scheduler.c:917-927 | The walk that goes back to the head after every drop ends, and misses no victim, with duplicate channels in a select list included. |
| SchedCancel.CancelSafe | runtime/sprout_scheduler.c:884-930 | A cancel returns if and only if the caller owns the scope and no victim is awaited or owns a deadline; then every suspended task of the scope but the caller is gone from every list, live fell by exactly their number, and all other registrations and queue orders are as before. |
| SchedJoin.ContextPinned | runtime/sprout_scheduler.c:1082-1084 | While a live task is lexically inside a scope, that scope is one of its own open scopes or cannot be joined. |
| SchedEnd.JoinSafe | runtime/sprout_scheduler.c:1056-1067 | A join of the innermost scope parks exactly while something is live in it; with nothing live it returns, having freed the scope, exactly if no channel of it has a parked task, and is refused otherwise. |
| SchedEnd.JoinTailSafe | runtime/sprout_scheduler.c:1068-1104 | Past its park a join goes on exactly if no channel of the scope has a parked task; then it frees exactly the scope, its forks, which have all ended, and its channels, and returns. |
| SchedTheorems.JoinParks | runtime/sprout_scheduler.c:1063-1066 | A join of a scope with live tasks never aborts: the caller is that scope's waiter, which is its one place, on no queue and no other link, and nothing else changes. |
| SchedTheorems.JoinReturns | runtime/sprout_scheduler.c:1056-1104 | A join with nothing live, or resumed from its park, finds every task of the scope done or dropped, and returns if and only if no channel of the scope has a parked task, and aborts otherwise; on its return the caller runs, exactly the scope, its forks and its channels have left the tables, and no surviving task is parked on a freed channel. |
| SchedCloseOps.ChanNewSafe | runtime/sprout_scheduler.c:1293-1325 | A new channel keeps the invariant and is empty and open under an id never used; it aborts exactly on a missing scope or a negative capacity. |
| SchedChanOps.SendSafe | runtime/sprout_scheduler.c:1329-1375 | A send keeps the invariant in all four of its cases, and aborts exactly on a channel that does not exist or is closed. |
| SchedDelivery.SendHandsOver | runtime/sprout_scheduler.c:1335-1343 | With receivers parked, the value goes to the one that waited longest, which becomes ready; the channel owed nothing; nothing else changes. |
| SchedDelivery.SendQueues | runtime/sprout_scheduler.c:1354-1369 | With nobody waiting, the value joins the end of what the channel owes: in the ring while it has room, else with its sender, which parks last in the queue; nothing else changes. |
| SchedNews.SendArrives | runtime/sprout_scheduler.c:1335-1343 | The value sent is what the receiver that waited longest returns, at the turn after the tasks that were ready before, after any run in between. |
| SchedTheorems.SelectReceives | runtime/sprout_scheduler.c:1344-1353 | With a select parked and no receiver, the value is that select's one outcome, and no other task, queue or channel is touched but by the removal of its registrations. |
| SchedNews.SelectArrives | runtime/sprout_scheduler.c:1344-1353 | After any run up to its turn that select returns the value sent, with a place of the channel in its list. |
| SchedTheorems.SelectFires | runtime/sprout_scheduler.c:318-332 | A select that fires gets the index that names the channel it was fired from, becomes ready once, and is on no channel's select queue any more, duplicates included; every other registration stays. |
| SchedRecvOps.PollTakeSafe | runtime/sprout_scheduler.c:346-377 | Polling a channel keeps the invariant and touches nothing when it has nothing. |
| SchedDelivery.PollTakesOldest | runtime/sprout_scheduler.c:346-377 | A poll takes the oldest value the channel owes (ring first, then parked senders in order), leaves the rest in order, and reports the end only for a closed channel that owes nothing. |
| SchedRecvOps.RecvSafe | runtime/sprout_scheduler.c:1381-1404 | A receive keeps the invariant, and aborts exactly on a channel that does not exist. |
| SchedDelivery.RecvTakesOldest | runtime/sprout_scheduler.c:1381-1404 | A receive returns the oldest value owed, or Closed, or parks behind the other receivers; which one is decided by what the channel owes and whether it is closed; nobody changes but a parked sender whose value moves up. |
| SchedDelivery.ReceiverReturns | runtime/sprout_scheduler.c:1396-1403 | A woken receiver or select returns the value it was handed, or Closed if a close woke it, and keeps none of it. |
| SchedRecvOps.SelectSafe | runtime/sprout_scheduler.c:1439-1492 | A select keeps the invariant whether it takes or parks, and aborts exactly on an empty list or a channel that does not exist. |
| SchedRecvOps.ScanSafe | runtime/sprout_scheduler.c:1454-1463 | The scan stops at the lowest ready position and changes nothing before it. |
| SchedDelivery.SelectTakesFirst | runtime/sprout_scheduler.c:1454-1463 | The lowest listed ready channel is the one taken from, its oldest value is returned, and its position is the returned index. |
| SchedDelivery.SelectParks | runtime/sprout_scheduler.c:1464-1481 | With no channel ready the select parks with exactly one registration per position of its list, and nothing else changes. |
| SchedCloseOps.DrainSafe | runtime/sprout_scheduler.c:1415-1431 | The three loops of a close end, with the invariant kept and nobody left on the channel. |
| SchedCloseOps.CloseSafe | runtime/sprout_scheduler.c:1411-1433 | A close keeps the invariant and leaves the channel closed with nobody parked on it; it aborts exactly on a channel that does not exist or is closed already. |
| SchedClosing.DrainTells | runtime/sprout_scheduler.c:1415-1431 | The three loops wake the parked receivers, then the senders, then the selects in order of first registration, each once, and empty the queues. |
| SchedClosing.CloseWakes | runtime/sprout_scheduler.c:1411-1433 | A close makes ready exactly the tasks parked on the channel, each once and in that order: receivers and selects with no value and the close, a select with a place of the channel in its list, senders with the close; ring, log and deliveries stay, other channels lose only those selects, and nothing else changes. |
| SchedNews.CloseArrives | runtime/sprout_scheduler.c:1396-1403 | After any run up to its turn each of them answers: a receiver returns Closed, a select its place and Closed, and a sender aborts. |
| SchedFifo.StepMoves | runtime/sprout_scheduler.c:346-377 | Whatever the step, the flow of each channel (values handed out, ring, what parked senders hold) gets the value sent on it at its end, if any, loses exactly what the senders hold that the step drops or tells of a close, and is otherwise as it was; a new channel has none. |
| SchedFifo.EveryRunFifo | runtime/sprout_scheduler.c:1329-1404 | In every run and for every capacity, rendezvous included: values handed out, then the ring, then what parked senders hold, are the values sent, in order, each once, without exactly those that went with a dropped sender or in a close. |
| SchedFifo.LosslessRunFifo | runtime/sprout_scheduler.c:1329-1404 | In a run that sheds no sender the k-th value handed out or still held is the k-th value sent, for every k. |
| SchedCode.Scheduler.constructor | runtime/sprout_scheduler.c:643-682 | The globals start as the step relation's first state. |
| SchedCode.Scheduler.PumpBatch | runtime/sprout_scheduler.c:541-568 | The loop over a batch does what the batch step says. |
| SchedCode.Scheduler.PumpEvent | runtime/sprout_scheduler.c:543-566 | One turn of that loop: timer teardown first, then at most one wake. |
| SchedCode.Scheduler.TaskCreate | runtime/sprout_scheduler.c:700-770 | A new task, queued, counted, and linked into the forks if it can be awaited. |
| SchedCode.Scheduler.TaskAwait | runtime/sprout_scheduler.c:776-789 | The half before the park, or the result at once. |
| SchedCode.Scheduler.TaskFinish | runtime/sprout_scheduler.c:593-638 | The trampoline's end and the pump's reclaim of the task. |
| SchedCode.Scheduler.WakeAwaiter | runtime/sprout_scheduler.c:605-630 | Exactly one push for an awaiter, whichever of child and timer came first. |
| SchedCode.Scheduler.ScopeJoin | runtime/sprout_scheduler.c:1056-1067 | The half before the park, or straight on when nothing is live. |
| SchedCode.Scheduler.AfterJoin | runtime/sprout_scheduler.c:1068-1104 | The loop over the forks, the loop over the channels, the scope itself. |
| SchedCode.Scheduler.FreeChans | runtime/sprout_scheduler.c:1088-1100 | The walk over all channels frees exactly those of the scope, or aborts when one has a parked task; the list stays complete. |
| SchedCode.Scheduler.SelectUnlinkAll | runtime/sprout_scheduler.c:318-322 | The loop over the registrations takes every one off its channel's queue. |
| SchedCode.Scheduler.Deregister | runtime/sprout_scheduler.c:816-849 | Tears down what the kind of park registered. |
| SchedCode.Scheduler.ForceDrop | runtime/sprout_scheduler.c:801-877 | The guards, the teardown, the record and the live count. |
| SchedCode.Scheduler.ScopeCancel | runtime/sprout_scheduler.c:884-930 | The owner check, the poller walk and the walk over every channel. |
| SchedCode.Scheduler.CancelChan | runtime/sprout_scheduler.c:905-928 | The three walks of one channel. |
| SchedCode.Scheduler.CancelList | runtime/sprout_scheduler.c:894-898 | A walk that reads the next link before the drop. |
| SchedCode.Scheduler.CancelSelects | runtime/sprout_scheduler.c:920-927 | A walk that re-reads the head after a drop, with its termination. |
| SchedCode.Scheduler.AwaitDeadline | runtime/sprout_scheduler.c:948-968 | The half before the park. |
| SchedCode.Scheduler.AfterDeadline | runtime/sprout_scheduler.c:970-1044 | One turn of the classification loop. |
| SchedCode.Scheduler.ChanSend | runtime/sprout_scheduler.c:1329-1370 | Receiver, select, ring or park, in that order. |
| SchedCode.Scheduler.ChanPollTake | runtime/sprout_scheduler.c:346-377 | The poll shared by receive and select. |
| SchedCode.Scheduler.ChanRecv | runtime/sprout_scheduler.c:1381-1395 | The half before the park, or the value at once. |
| SchedCode.Scheduler.ChanClose | runtime/sprout_scheduler.c:1411-1433 | The flag and the three loops. |
| SchedCode.Scheduler.CloseReceivers | runtime/sprout_scheduler.c:1415-1419 | The loop over parked receivers. |
| SchedCode.Scheduler.CloseSenders | runtime/sprout_scheduler.c:1420-1424 | The loop over parked senders. |
| SchedCode.Scheduler.CloseSelects | runtime/sprout_scheduler.c:1425-1431 | The loop that re-reads the head of the select queue. |
| SchedCode.Scheduler.ChanSelect | runtime/sprout_scheduler.c:1439-1481 | The checks, the scan and the registration. |
| SchedCode.Scheduler.SelectScan | runtime/sprout_scheduler.c:1454-1463 | The scan loop. |
| SchedCode.Scheduler.SelectRegister | runtime/sprout_scheduler.c:1468-1477 | The registration loop, one entry per position. |
| SchedCodeRuns.Step | runtime/sprout_scheduler.c:534-588 | One call of the code from any state a run can be in does what the step relation says, is never undefined, and leaves the invariant and the channel list intact. |
| SchedCodeRuns.ContinueStep | runtime/sprout_scheduler.c:572-574 | Every continuation after a park does what its step says. |
| HandleTable.PackBits | runtime/sprout_scheduler.c:436-438 | The shift and mask of the code are the arithmetic of the model. |
| HandleTable.UnpackPack | runtime/sprout_scheduler.c:436-438 | Packing the unpacked halves gives the 64-bit handle back. |
| HandleTable.FillsOne | runtime/sprout_scheduler.c:440-460 | Filling a slot gives out exactly one handle that was never given out, and makes exactly it resolve. |
| HandleTable.EmptiesOne | runtime/sprout_scheduler.c:463-471 | Emptying a slot makes exactly its own handle stale, a spent last generation included. |
| HandleTable.Table.Alloc | runtime/sprout_scheduler.c:440-460 | A handle is new and not 0; it fails only with 2^32 - 1 slots used or retired. |
| HandleTable.Table.FillSlot | runtime/sprout_scheduler.c:440-460 | The slot and free-list work of an allocation. |
| HandleTable.Table.Release | runtime/sprout_scheduler.c:463-471 | The one handle goes stale; all others resolve as before. |
| HandleTable.Table.EmptySlot | runtime/sprout_scheduler.c:463-471 | The slot and free-list work of a release, retirement included. |
| HandleTable.Table.Lookup | runtime/sprout_scheduler.c:478-493 | Succeeds if and only if the handle was issued for that kind and not yet released, and gives the record it was issued for. |
| HandleTable.Client | runtime/sprout_scheduler.c:412-422 | For every sequence of allocations and releases the handles are pairwise distinct and not 0, and the live ones are exactly those not released. |
| ChanRing.AtMod | runtime/sprout_scheduler.c:336-339 | The remainder the code takes is the slot that is p places after head. |
| ChanRing.Want | runtime/sprout_scheduler.c:1275 | A full ring goes to min(cap, 2 * slots), without overflow of a 64-bit size. |
| ChanRing.Ring.constructor | runtime/sprout_scheduler.c:1299-1321 | A ring starts empty with min(cap, 16) zeroed slots. |
| ChanRing.Ring.Grow | runtime/sprout_scheduler.c:1272-1286 | Growing keeps the FIFO contents, zeroes the rest and moves the scan root to the whole new block. |
| ChanRing.Ring.Put | runtime/sprout_scheduler.c:1358-1360 | A value goes to the tail; nothing else moves. |
| ChanRing.Ring.Enqueue | runtime/sprout_scheduler.c:1354-1362 | The ring is grown exactly when it is full and below its bound. |
| ChanRing.Ring.Dequeue | runtime/sprout_scheduler.c:347-351 | The oldest value comes out and its slot is cleared. |
| ChanRing.Ring.Take | runtime/sprout_scheduler.c:347-364 | A receive from a full ring lets the parked sender's value into the freed slot. |
| ChanRing.Ring.CopyBound | runtime/sprout_scheduler.c:1272-1286 | Over a channel's life fewer than two values are copied for each one enqueued. |
| Queues.ChanQueue.Push | runtime/sprout_scheduler.c:263-269 | Appends to the linked queue, touching only channel links. |
| Queues.ChanQueue.Pop | runtime/sprout_scheduler.c:271-279 | Takes the head off, with its links cleared. |
| Queues.ChanQueue.Remove | runtime/sprout_scheduler.c:281-287 | Unlinks from anywhere; the others keep their order. |
| Queues.IoList.Push | runtime/sprout_scheduler.c:379-385 | Links in at the head; among the tasks ever linked, the flag is set exactly for those on the list. |
| Queues.IoList.Remove | runtime/sprout_scheduler.c:387-393 | Unlinks from anywhere; among the tasks ever linked, the flag is set exactly for those on the list. |
| Queues.ReadyQueue.Push | runtime/sprout_scheduler.c:395-400 | Appends a task that is not queued; the flag is set exactly for the queued ones. |
| Queues.ReadyQueue.Pop | runtime/sprout_scheduler.c:402-410 | First in, first out. |
| Queues.RemovedIsWithout | runtime/sprout_scheduler.c:281-287 | The linked removal is the removal the step relation is stated with. |
| Queues.WakeParked | runtime/sprout_scheduler.c:545-566 | On links shared by both lists: a harvested task moves from the poller list to the end of the ready queue, unless an earlier event moved it. |
| Queues.WakeAll | runtime/sprout_scheduler.c:1415-1424 | A loop of a close moves everyone on a channel queue to the end of the ready queue, in order, on the records' own links. |
| P256.CiosValue | scripts/gen_p256_felem.py:37-56 | 2^26 times the result of a step is t + a*bi + m*p, for the m the step takes. |
| P256.CiosFits | scripts/gen_p256_felem.py:29-31 | Every word of both carry chains stays below 2^52. |
| P256.CiosBound | scripts/gen_p256_felem.py:26-31 | From t below 2p a step stays below 2p, with every limb canonical. |
| P256.PassesInvariant | scripts/gen_p256_felem.py:155-168 | After k passes 2^(26k) * t is a * (b mod 2^(26k)) up to a multiple of p, with t below 2p. |
| P256.MontMulCorrect | scripts/gen_p256_felem.py:155-168 | For canonical a, b below p the product is the canonical a * b * 2^-260 mod p. |
| P256.SubPIfGeCorrect | scripts/gen_p256_felem.py:59-77 | The conditional subtraction is reduction mod p for inputs below 2p. |
| P256.AddCorrect | scripts/gen_p256_felem.py:79-100 | The sum is canonical and is (a + b) mod p; the top carry that is not computed is 0. |
| P256.SubCorrect | scripts/gen_p256_felem.py:102-129 | The difference is canonical and is (a - b) mod p; the dropped top carry is exactly the 2^260 the borrow put in. |
| P256.SquareConstant | stdlib/crypto/p256.sprout:331 | felem_r2 is 2^520 mod p, in canonical limbs. |
| P256.ToMontCorrect | stdlib/crypto/p256.sprout:349 | Entering Montgomery form multiplies by 2^260 mod p. |
| P256.MontRoundTrip | stdlib/crypto/p256.sprout:349-351 | Leaving Montgomery form undoes entering it. |
| P256.MontProduct | scripts/gen_p256_felem.py:156-157 | A product of Montgomery forms is the Montgomery form of the product. |
| LimbWords.LimbBits | scripts/gen_p256_felem.py:36-49 | On 64-bit words the mask by 2^26 - 1 is the remainder and the shift by 26 the quotient of the carry chains. |
| LimbWords.BorrowBits | scripts/gen_p256_felem.py:69-72 | For the word of a difference of two limbs and a borrow, the shifted sign bit is the test for a borrow and the mask the remainder. |
| LimbWords.CarryBits | scripts/gen_p256_felem.py:37-56 | While no sum of a carry chain leaves 64 bits, the masks of its words are the limbs and the last shift the carry of module P256. |
| LimbWords.CiosBits | scripts/gen_p256_felem.py:37-56 | The words of a step, which never leave 64 bits, give the step: masks for limbs and the two last shifts for the top one. |
| LimbWords.BorrowChain | scripts/gen_p256_felem.py:69-72 | The masks of a borrow chain's words are the limbs and its last sign bit the borrow of module P256. |
| WinPoller.RootFirst | runtime/sprout_poll.c:73-81 | The root of the heap is a nearest deadline. |
| WinPoller.Timeout | runtime/sprout_poll.c:217-226 | The wait's timeout is -1 exactly when there is no timer, 0 exactly when one is due, and otherwise the time to the nearest deadline, at most 2^31 - 1. |
| WinPoller.Poller.SiftUp | runtime/sprout_poll.c:155-162 | Restores heap order and keeps the timers. |
| WinPoller.Poller.SiftDown | runtime/sprout_poll.c:164-173 | Restores heap order below, and leaves at most one place above to mend. |
| WinPoller.Poller.DropTimer | runtime/sprout_poll.c:175-182 | Removes exactly the timer at any slot and keeps heap order. |
| WinPoller.Poller.AddTimer | runtime/sprout_poll.c:184-200 | Adds one timer under an id never used before. |
| WinPoller.Poller.RemoveTimer | runtime/sprout_poll.c:202-212 | Removes the timer of that id; a stale id changes nothing. |
| WinPoller.Poller.FindFd | runtime/sprout_poll.c:109-113 | The slot of a watched socket, or -1 exactly if it is not watched. |
| WinPoller.Poller.DropFd | runtime/sprout_poll.c:116-122 | The last entry fills the hole. |
| WinPoller.Poller.AddFd | runtime/sprout_poll.c:124-141 | Watches the socket, replacing what was watched under it. |
| WinPoller.Poller.RemoveFd | runtime/sprout_poll.c:143-147 | Forgets exactly that socket. |
| WinPoller.Poller.CollectFds | runtime/sprout_poll.c:243-253 | The first ready sockets in table order and their slots, ascending, all of them if the batch has room. |
| WinPoller.Poller.DropFds | runtime/sprout_poll.c:254 | Descending swap-removals drop exactly the collected sockets. |
| WinPoller.Poller.HarvestFds | runtime/sprout_poll.c:243-254 | Ready sockets leave the table exactly if they are reported, the first in table order. |
| WinPoller.Poller.HarvestTimers | runtime/sprout_poll.c:256-265 | Due timers come out in nondecreasing deadline order; none that stays is earlier; a batch with room leaves none due. |
| WinPoller.Poller.Round | runtime/sprout_poll.c:242-267 | One wait takes out exactly what it reports, at most max and at most 64, sockets first: those watched and ready in table order, then timers that were due, nearest first; with room for more, none of either is left. |
| WinPoller.Poller.Wait | runtime/sprout_poll.c:214-272 | For any answers of the system: each wait is asked for Timeout of the timers; a turn in which a watched socket is ready or a timer due, with max above 0, is never waited past; it goes round exactly while there is neither; the batch, of at most max and at most 64, is what the last turn made ready and due, and that alone leaves the tables; it stops the process exactly if nothing is registered or WSAPoll fails. |
| SchedPoller.RoundHarvested | runtime/sprout_poll.c:242-267 | If the poller's two tables hold the registrations of a scheduler state, what a wait reports is a batch the pump may take, every report carries the task its registration belongs to, and the tables hold the registrations of the state after the pump has handled it. |
| SchedPoller.ArmBacks | runtime/sprout_poll.c:184-200 | The id a new timer gets is one the scheduler may be given, and the table then holds the new registration. |
| SchedPoller.WatchBacks | runtime/sprout_poll.c:124-141 | Watching a socket keeps the table in step with the scheduler, which then has the socket registered under that task. |
| SchedPoller.RemovalBacks | runtime/sprout_poll.c:143-147 | Removing a socket or a timer keeps the tables in step with the scheduler, registered or not. |
| AStar.OpenSet.Insert | bench/astar/astar.go:46-55 | The linear scan inserts after every entry that is no larger. |
| AStar.OpenSet.InsertBinary | bench/astar/astar.js:24-32 | The binary search finds that same place. |
| AStar.UpperBoundUnique | bench/astar/astar.js:24-32 | In a sorted list there is only one such place. |
| AStar.InsertionsAgree | bench/astar/astar.js:24-32 | On a sorted list the two insertions leave the same list. |
| AStar.HeurPath | bench/astar/astar.go:29-39 | The heuristic falls by at most one per step of a path. |
| AStar.HeurTight | bench/astar/astar.go:29-39 | On a grid without walls the goal is reached in exactly as many further steps as the heuristic says, so no larger estimate would be admissible. |
| AStar.Frontier | bench/astar/astar.go:69-98 | A path to a cell that is not closed crosses the open set at an entry no worse than the path allows. |
| AStar.FirstIsExact | bench/astar/astar.go:70-81 | The first entry of the open set, if its cell is not closed, carries that cell's true distance. |
| AStar.NothingOpen | bench/astar/astar.go:99 | An empty open set means there is no path to the goal. |
| AStar.Expand | bench/astar/astar.go:83-97 | The loop over the four directions keeps what the search knows. |
| AStar.Pass | bench/astar/astar.go:70-97 | One turn of the main loop keeps what the search knows, that every closed cell's score is its distance included, and makes progress. |
| AStar.Shortest | bench/astar/astar.go:59-100 | For any grid size, walls and goal, with Inf above the cell count: terminates, and returns the length of a shortest path, or -1 exactly when there is none. In the two arrays as it leaves them every closed cell has its distance as score; on -1 the closed cells are exactly the reachable ones, and otherwise every cell whose distance and heuristic sum to less than the answer is closed. |
| AStar.Bench | bench/astar/astar.go:14-27 | On the benchmark's own grid the answer is 198. |
| NQueens.PureCounts | bench/nqueens/nqueens.go:27-45 | From tables that describe a placement, queensPure counts the non-attacking boards that extend it from that column on. |
| NQueens.PureIsRight | bench/nqueens/nqueens.go:47-49 | countPure is the number of non-attacking boards of n queens. |
| NQueens.QueensMut | bench/nqueens/nqueens.go:53-70 | Returns what queensPure returns, and leaves its three arrays as they were. |
| NQueens.CountMut | bench/nqueens/nqueens.go:72-74 | countMut is the number of non-attacking boards. |
| NQueens.LowestBit | bench/nqueens/nqueens.go:90-91 | x & -x isolates the lowest set bit and x & (x - 1) clears it, on 64-bit words. |
| NQueens.WordsPlace | bench/nqueens/nqueens.go:92 | The shifted words describe exactly the columns of the next row attacked along each diagonal. |
| NQueens.AvailableFits | bench/nqueens/nqueens.go:87 | The masked word has exactly the columns where the next queen fits. |
| NQueens.FullIs | bench/nqueens/nqueens.go:84-86 | The column word equals the mask exactly when every row has its queen. |
| NQueens.QueensBitmask | bench/nqueens/nqueens.go:83-95 | The loop counts the boards that extend the placement its words describe. |
| NQueens.CountBitmask | bench/nqueens/nqueens.go:97-99 | For n up to 63, countBitmask is the number of non-attacking boards. |
| NQueens.CountsAgree | bench/nqueens/nqueens.go:27-99 | For n from 1 to 63 the three counts are equal. |
| MergeSort.ShiftUp | bench/native_runtime/sort_c.c:34 | The inner loop moves the larger elements up by one. |
| MergeSort.Insertion | bench/native_runtime/sort_c.c:31-37 | A block ends sorted, with equal keys in their order, and the rest of the array untouched. |
| MergeSort.MergeHeads | bench/native_runtime/sort_c.c:41 | The first merge loop: the left element wins a tie. |
| MergeSort.Merge | bench/native_runtime/sort_c.c:39-44 | Two sorted runs become one sorted, stable run; nothing outside it is written. |
| MergeSort.Blocks | bench/native_runtime/sort_c.c:47 | The array becomes sorted blocks of 16. |
| MergeSort.Pass | bench/native_runtime/sort_c.c:51-54 | A pass turns runs of w into runs of 2w in the other buffer, with all bounds in range. |
| MergeSort.Sort | bench/native_runtime/sort_c.c:46-58 | a ends sorted, a permutation of its input, and stable, whichever buffer the last pass wrote. |
| MergeSort.SameIsPermutation | bench/native_runtime/sort_c.c:46-58 | Keeping the order of every key is a permutation. |
| MergeSort.SortedIsUnique | bench/native_runtime/sort_c.c:46-58 | There is only one sorted, stable arrangement of an input. |
| Utf8.FormEncodes | examples/twelve_dollar_server/src/sqlite_ffi.c:161-181 | What is accepted at the head is the encoding (section 3 of RFC 3629) of the scalar it spells, never NUL, a surrogate or above U+10FFFF. |
| Utf8.EncodeForms | examples/twelve_dollar_server/src/sqlite_ffi.c:161-181 | The encoding of every scalar is accepted whatever follows it, and spells that scalar. |
| Utf8.Peel | examples/twelve_dollar_server/src/sqlite_ffi.c:161-181 | A string is a text exactly if its head is accepted and the rest is a text. |
| Utf8.TextIsUnique | examples/twelve_dollar_server/src/sqlite_ffi.c:156-158 | The scalars of a text are determined by its bytes. |
| Utf8.Next | examples/twelve_dollar_server/src/sqlite_ffi.c:162-179 | The masks and comparisons of one turn decide the forms of section 4 of RFC 3629. |
| Utf8.PlainUtf8 | examples/twelve_dollar_server/src/sqlite_ffi.c:159-182 | Accepts a byte string exactly if it is the concatenation of encodings of a sequence of scalars in U+0001..U+10FFFF. |

## Left out

* Context switching, guard pages, the stack cache and Win32 fibers: a park is a step boundary,
  and a stack is something that is destroyed at most once.
* The collector: only the ring's scan root is modelled. Root contexts of tasks are not, so that
  roots and stack are freed together is not stated.
* `park_close_fd` and `park_cleanup`: what a drop closes or frees for an unowned socket or a
  parked builtin.
* The kqueue and epoll arms of the poller, and the system calls of all three.
- SchedCode.Scheduler.AfterDeadline: one turn of the classification loop per call, because the loop goes through a park.
- SchedCode.Scheduler.TaskFinish: does not model that the pump destroys the stack of a finished task in a later turn of its own loop; here it is part of the end of the task.
- SchedCode.Scheduler.RqPush: on a sequence, not on links; the links are in `Queues`, where a record carries only its link fields, and the ring of a channel is in `ChanRing`. They are proved to do the same sequence operations, but are not fields of `Scheduler`.
- SchedRuns.EveryRunSafe: says nothing about fairness to tasks parked in the poller: the pump polls only when nothing is ready, so busy tasks can starve them; `SchedTurns` has the fairness among ready tasks.
- SchedTheorems.DeadlineYields: does not bound the number of turns, which the child's own progress decides.
- HandleTable.Client: identifiers in the step relation are never reused, which is what this table gives; the two are not joined in one state.
- HandleTable.Table.Alloc: growth of the table's block and running out of memory are not modelled.
- ChanRing.Ring.Grow: running out of memory is not modelled.
- WinPoller.Poller.AddTimer: deadlines and ids are unbounded integers; the 64-bit clock and counter do not wrap.
- WinPoller.Poller.Wait: what each system wait reports, whether it fails and the clock around it are parameters.
- NQueens.CountBitmask: counts are unbounded, so the 64-bit wrap of the count itself for large n is not modelled; the words are 64 bits.
- MergeSort.Sort: indices and widths are unbounded, so overflow of the doubling width is not modelled; `tag` stands for the identity of equal keys.
- AStar.Shortest: machine integers do not overflow, as the cell count bounds every score.
* The field inverse, the point arithmetic and the encodings of `stdlib/crypto/p256.sprout`: only
  the Montgomery boundary is modelled.
* The rest of `sqlite_ffi.c`, the builtins for TCP and HTTP, the map, strings and the standard
  library.
