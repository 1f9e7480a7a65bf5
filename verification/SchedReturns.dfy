// What wakes whom, and what the parked calls return: the poll batch, the end of a task, await,
// and the bounded wait for a descriptor.
module SchedReturns {
  import opened Common
  import opened SchedState
  import opened SchedSteps
  import opened SchedMachine
  import opened SchedInvariant
  import opened SchedPollOps
  import opened SchedScopeOps
  import opened SchedFinish
  import opened SchedRuns
  import opened SchedTheorems

  // ---- A poll batch ----

  function Owner(st: State, e: Event): TaskId
    requires Registered(st, e)
  {
    match e case FdReady(fd) => st.fds[fd] case TimerFired(tid) => st.timers[tid]
  }

  function Owners(st: State, batch: seq<Event>): (r: seq<TaskId>)
    requires forall i :: 0 <= i < |batch| ==> Registered(st, batch[i])
    ensures |r| == |batch| && forall i :: 0 <= i < |r| ==> r[i] == Owner(st, batch[i])
  {
    seq(|batch|, i requires 0 <= i < |batch| => Owner(st, batch[i]))
  }

  // The first event of each suspended task, in batch order.
  ghost function Firsts(q: seq<TaskId>, io: seq<TaskId>): seq<TaskId> {
    if q == [] then []
    else (if q[0] in io then [q[0]] else []) + Firsts(q[1..], Without(io, {q[0]}))
  }

  function TimersIn(batch: seq<Event>): (r: set<TimerId>)
    ensures forall tid :: tid in r <==> TimerFired(tid) in batch
  {
    if batch == [] then {}
    else (if batch[0].TimerFired? then {batch[0].tid} else {}) + TimersIn(batch[1..])
  }

  function FdsIn(batch: seq<Event>): (r: set<int>)
    ensures forall fd :: fd in r <==> FdReady(fd) in batch
  {
    if batch == [] then {}
    else (if batch[0].FdReady? then {batch[0].fd} else {}) + FdsIn(batch[1..])
  }

  // What a batch tells a task: whether it was a timer that woke it.
  predicate Tells(x: Task, y: Task, byTimer: bool) {
    y.wokeByTimer == byTimer && y.expired == byTimer && y.frame == x.frame
  }

  predicate TellsNothing(x: Task, y: Task) {
    y.wokeByTimer == x.wokeByTimer && y.expired == x.expired && y.frame == x.frame
  }

  // The wake: the task, if it is on the list, moves to the ready queue, told why.
  lemma WakeTells(st: State, w: TaskId, byTimer: bool)
    requires w in st.tasks && (w in st.io <==> st.tasks[w].onIo)
    requires WakeFromIo(st, w, byTimer).Next?
    ensures var st1 := WakeFromIo(st, w, byTimer).value;
      && st1.rq == (if w in st.io then st.rq + [w] else st.rq)
      && st1.io == Without(st.io, {w})
      && st1.timers == st.timers && st1.fds == st.fds
      && w in st1.tasks && st1.tasks == st.tasks[w := st1.tasks[w]]
      && (if w in st.io then Tells(st.tasks[w], st1.tasks[w], byTimer)
          else TellsNothing(st.tasks[w], st1.tasks[w]))
  {
    hide Without;
    if w !in st.io {
      WithoutNothing(st.io, {w});
    }
  }

  // One event takes its registration out, and its task off the list the first time, telling it
  // whether the event was its timer.
  lemma EventEffect(st: State, e: Event)
    requires Inv(st) && st.cur == None && Registered(st, e)
    ensures HarvestOne(st, e).Next?
    ensures var st1, w := HarvestOne(st, e).value, Owner(st, e);
      && st1.rq == (if w in st.io then st.rq + [w] else st.rq)
      && st1.io == Without(st.io, {w})
      && st1.timers == st.timers - (if e.TimerFired? then {e.tid} else {})
      && st1.fds == st.fds - (if e.FdReady? then {e.fd} else {})
      && w in st.tasks && w in st1.tasks && st1.tasks == st.tasks[w := st1.tasks[w]]
      && (if w in st.io then Tells(st.tasks[w], st1.tasks[w], e.TimerFired?)
          else TellsNothing(st.tasks[w], st1.tasks[w]))
  {
    hide Core, ChansOk, ClosedOk, WakeFromIo, Without;
    var w := Owner(st, e);
    match e {
      case FdReady(fd) =>
        FdReadySafe(st, fd);
        FdOwner(st, fd);
        QueueFacts(st, w);
        assert st.tasks[w := st.tasks[w]] == st.tasks;
        WakeTells(st.(fds := st.fds - {fd}), w, false);
      case TimerFired(tid) =>
        TimerFiredSafe(st, tid);
        TimerOwner(st, tid);
        QueueFacts(st, w);
        WakeTells(TimerGone(st, tid), w, true);
    }
  }

  // Whether the first event of t in the batch is its timer.
  function ByTimer(owners: seq<TaskId>, batch: seq<Event>, t: TaskId): bool
    requires |owners| == |batch|
  {
    if batch == [] then false
    else if owners[0] == t then batch[0].TimerFired?
    else ByTimer(owners[1..], batch[1..], t)
  }

  // Each suspended task that the batch names is told whether it was its timer that came first.
  ghost predicate AllTold(st: State, st': State, owners: seq<TaskId>, batch: seq<Event>) {
    && |owners| == |batch| && st'.tasks.Keys == st.tasks.Keys
    && forall t :: t in st.tasks ==>
         if t in st.io && t in owners
         then Tells(st.tasks[t], st'.tasks[t], ByTimer(owners, batch, t))
         else TellsNothing(st.tasks[t], st'.tasks[t])
  }

  // A batch makes each suspended task it names ready once, in the order of first mention, tells
  // it whether its timer or its descriptor was mentioned first, and takes out exactly the
  // registrations it reports.
  lemma {:induction false} BatchWakes(st: State, batch: seq<Event>)
    requires Inv(st) && st.cur == None && BatchOk(st, batch)
    ensures Harvest(st, batch).Next?
    ensures var st' := Harvest(st, batch).value;
      && st'.rq == st.rq + Firsts(Owners(st, batch), st.io)
      && (forall t :: t in st'.io <==> t in st.io && t !in Owners(st, batch))
      && st'.timers == st.timers - TimersIn(batch)
      && st'.fds == st.fds - FdsIn(batch)
      && AllTold(st, st', Owners(st, batch), batch)
    decreases |batch|
  {
    hide Inv, HarvestOne, Firsts, TimersIn, FdsIn, Owner, AllTold, Tells, TellsNothing;
    if batch == [] {
      NothingReported(st);
      NobodyTold(st);
    } else {
      HarvestHead(st, batch);
      assert Registered(st, batch[0]);
      EventEffect(st, batch[0]);
      var st1 := HarvestOne(st, batch[0]).value;
      BatchWakes(st1, batch[1..]);
      SameOwners(st, st1, batch);
      var o := Owners(st, batch);
      FirstsStep(o, st.io, st.rq, st1.rq, Firsts(o[1..], st1.io));
      ParkedStep(o, st.io);
      TakenStep(batch, st.timers, st.fds);
      ToldStep(st, st1, Harvest(st, batch).value, o, batch);
    }
  }

  lemma NobodyTold(st: State)
    ensures AllTold(st, st, [], [])
  {
  }

  lemma ToldStep(st: State, st1: State, st': State, o: seq<TaskId>, batch: seq<Event>)
    requires batch != [] && |o| == |batch| && o[0] in st.tasks && o[0] in st1.tasks
    requires st1.tasks == st.tasks[o[0] := st1.tasks[o[0]]] && st1.io == Without(st.io, {o[0]})
    requires if o[0] in st.io then Tells(st.tasks[o[0]], st1.tasks[o[0]], batch[0].TimerFired?)
             else TellsNothing(st.tasks[o[0]], st1.tasks[o[0]])
    requires AllTold(st1, st', o[1..], batch[1..])
    ensures AllTold(st, st', o, batch)
  {
    assert o == [o[0]] + o[1..];
  }

  lemma NothingReported(st: State)
    ensures st.rq + Firsts([], st.io) == st.rq
    ensures st.timers - TimersIn([]) == st.timers && st.fds - FdsIn([]) == st.fds
  {
  }

  lemma FirstsStep(o: seq<TaskId>, io: seq<TaskId>, rq: seq<TaskId>, rq1: seq<TaskId>,
                   rest: seq<TaskId>)
    requires o != [] && rq1 == (if o[0] in io then rq + [o[0]] else rq)
    requires rest == Firsts(o[1..], Without(io, {o[0]}))
    ensures rq1 + rest == rq + Firsts(o, io)
  {
    FirstsHead(o, io);
    hide Firsts, Without;
    if o[0] in io {
      Regroup(rq, [o[0]], rest);
    } else {
      assert [] + rest == rest;
    }
  }

  lemma FirstsHead(o: seq<TaskId>, io: seq<TaskId>)
    requires o != []
    ensures Firsts(o, io) ==
              (if o[0] in io then [o[0]] else []) + Firsts(o[1..], Without(io, {o[0]}))
  {
    hide Without;
  }

  lemma Regroup(a: seq<TaskId>, b: seq<TaskId>, c: seq<TaskId>)
    ensures (a + b) + c == a + (b + c)
  {
  }

  lemma ParkedStep(o: seq<TaskId>, io: seq<TaskId>)
    requires o != []
    ensures forall t :: t in Without(io, {o[0]}) && t !in o[1..] <==> t in io && t !in o
  {
    assert o == [o[0]] + o[1..];
  }

  lemma TakenStep(batch: seq<Event>, timers: map<TimerId, TaskId>, fds: map<int, TaskId>)
    requires batch != []
    ensures var e := batch[0];
      && timers - (if e.TimerFired? then {e.tid} else {}) - TimersIn(batch[1..])
         == timers - TimersIn(batch)
      && fds - (if e.FdReady? then {e.fd} else {}) - FdsIn(batch[1..]) == fds - FdsIn(batch)
  {
  }

  lemma SameOwners(st: State, st1: State, batch: seq<Event>)
    requires batch != []
    requires forall i :: 0 <= i < |batch| ==> Registered(st, batch[i])
    requires forall i :: 0 <= i < |batch[1..]| ==> Registered(st1, batch[1..][i])
    requires forall fd :: fd in st1.fds ==> fd in st.fds && st1.fds[fd] == st.fds[fd]
    requires forall tid :: tid in st1.timers ==> tid in st.timers && st1.timers[tid] == st.timers[tid]
    ensures Owners(st, batch) == [Owner(st, batch[0])] + Owners(st1, batch[1..])
    ensures Owners(st, batch)[1..] == Owners(st1, batch[1..])
  {
    var a, b := Owners(st, batch), Owners(st1, batch[1..]);
    forall i | 0 <= i < |b| ensures a[i + 1] == b[i] {
      assert batch[1..][i] == batch[i + 1];
    }
  }

  // ---- The end of a task ----

  // One fewer is live in s, nobody waits for it once its joiner is woken, and nothing else changes
  // in any scope or on any channel.
  ghost predicate LeftScope(st: State, st': State, t: TaskId, s: ScopeId)
    requires s in st.scopes && s in st'.scopes
  {
    var c := st.scopes[s];
    && st'.scopes == st.scopes[s := st'.scopes[s]] && st'.chans == st.chans
    && st'.scopes[s] == c.(live := c.live - 1,
                           waiter := if JoinerSleeps(st, t, s) then None else c.waiter)
  }

  // Its awaiter and the joiner are ready if they slept, its record stays only if it can be awaited,
  // with the result, and the pump runs.
  ghost predicate EndEffect(st: State, st': State, t: TaskId, result: int) {
    && t in st.tasks && st.tasks[t].scope.Some? && var x, s := st.tasks[t], st.tasks[t].scope.value;
    && s in st.scopes && s in st'.scopes && LeftScope(st, st', t, s) && st'.cur == None
    && st'.rq == st.rq + (if AwaiterSleeps(st, t) then [x.awaiter.value] else [])
                       + (if JoinerSleeps(st, t, s) then [st.scopes[s].waiter.value] else [])
    && (t in st'.tasks <==> x.awaitable)
    && (x.awaitable ==> st'.tasks[t] == x.(done := true, result := result, awaiter := None))
  }

  // A task that ends wakes its awaiter, unless the deadline timer already has, and the joiner
  // if it was the last of its scope; it keeps its result only if it can be awaited.
  lemma FinishWakes(st: State, t: TaskId, result: int)
    requires Ready(st, t) && st.tasks[t].scope.Some? && st.tasks[t].nest == []
    ensures Finish(st, t, result).Next? && EndEffect(st, Finish(st, t, result).value, t, result)
  {
    hide Core, ChansOk, ClosedOk, Finish, FrameOk, Wakeable, Finished;
    FinishingFacts(st, t);
    var s := st.tasks[t].scope.value;
    FinishIs(st, t, s, result);
    SleepersOff(st, t, s);
    if st.tasks[t].awaiter.Some? {
      AwaiterNotJoiner(st, t, s);
    }
    FinishedShape(st, t, s, result);
  }

  lemma FinishedShape(st: State, t: TaskId, s: ScopeId, result: int)
    requires t in st.tasks && st.tasks[t].scope == Some(s) && s in st.scopes
    requires forall v :: v in Sleepers(st, t, s) ==> v in st.tasks && v != t
    requires st.tasks[t].awaiter.Some? ==> st.scopes[s].waiter != st.tasks[t].awaiter
    ensures var st', x := Finished(st, t, result), st.tasks[t];
      && s in st'.scopes && LeftScope(st, st', t, s) && st'.cur == None
      && st'.rq == st.rq + (if AwaiterSleeps(st, t) then [x.awaiter.value] else [])
                         + (if JoinerSleeps(st, t, s) then [st.scopes[s].waiter.value] else [])
      && (t in st'.tasks <==> x.awaitable)
      && (x.awaitable ==> st'.tasks[t] == x.(done := true, result := result, awaiter := None))
  {
    EndedShape(st, t, s, result);
    hide Ended, Awakened;
    var st1 := Ended(st, t, result);
    if AwaiterSleeps(st, t) {
      assert st.tasks[t].awaiter.value in Sleepers(st, t, s);
      AwakenedShape(st1, st.tasks[t].awaiter.value);
    }
    if JoinerSleeps(st, t, s) {
      assert st.scopes[s].waiter.value in Sleepers(st, t, s);
      AwakenedShape(AwaiterWoken(st, t, result), st.scopes[s].waiter.value);
    }
  }

  lemma EndedShape(st: State, t: TaskId, s: ScopeId, result: int)
    requires t in st.tasks && st.tasks[t].scope == Some(s) && s in st.scopes
    ensures var st1, x := Ended(st, t, result), st.tasks[t];
      && s in st1.scopes && LeftScope(st, st1, t, s) && st1.cur == None
      && st1.rq == st.rq && (t in st1.tasks <==> x.awaitable)
      && (forall u :: u in st.tasks && u != t ==> u in st1.tasks)
      && (x.awaitable ==> st1.tasks[t] == x.(done := true, result := result, awaiter := None))
  {
  }

  lemma AwakenedShape(st: State, a: TaskId)
    requires a in st.tasks
    ensures var st' := Awakened(st, a);
      && st'.rq == st.rq + [a] && st'.scopes == st.scopes && st'.cur == st.cur
      && st'.chans == st.chans
      && st'.tasks == st.tasks[a := st'.tasks[a]]
  {
  }

  // ---- Await ----

  // An await returns the result the task ended with, whether it had to park or not.
  lemma AwaitReturns(st: State, t: TaskId, u: TaskId)
    requires Inv(st) && st.cur == Some(t) && t in st.tasks
    requires st.tasks[t].frame == InAwait(u)
    ensures u in st.tasks && st.tasks[u].done && Resume(st, t).Next?
    ensures var st' := Resume(st, t).value;
      && Ready(st', t) && Returned(st, st', t, Result(st.tasks[u].result))
      && Places(st', t) == 1 && TimersOf(st', t) == {} && FdsOf(st', t) == {}
  {
    hide Inv, Places, TimersOf, FdsOf;
    ResumeAwaitSafe(st, t, u);
    RunningPlace(Resume(st, t).value, t);
  }

  // The result at once, or a park on u's link and on nothing else.
  ghost predicate AwaitEffect(st: State, st': State, t: TaskId, u: TaskId) {
    && t in st.tasks && u in st.tasks
    && if st.tasks[u].done then Returned(st, st', t, Result(st.tasks[u].result))
       else
         && st'.cur == None && AwaitedBy(st', t) == {u} && SameQueues(st, st')
         && st'.tasks.Keys == st.tasks.Keys && st'.tasks[t].frame == InAwait(u)
         && (forall v :: v in st.tasks && v != t && v != u ==> st'.tasks[v] == st.tasks[v])
         && st'.scopes == st.scopes && st'.chans == st.chans
  }

  lemma AwaitAtOnce(st: State, t: TaskId, u: TaskId)
    requires Ready(st, t) && CallerOk(st, t, DoAwait(u))
    requires u in st.tasks && st.tasks[u].awaitable && !st.tasks[u].dropped
    ensures Await(st, t, u).Next?
    ensures AwaitEffect(st, Await(st, t, u).value, t, u)
  {
    hide Inv, AwaitedInside;
    AwaitSafe(st, t, u);
    hide Unawaited;
    if !st.tasks[u].done {
      RunningUnlinked(st, t);
      var st' := Await(st, t, u).value;
      forall v ensures v in AwaitedBy(st', t) <==> v == u {
      }
    }
  }

  lemma RunningUnlinked(st: State, t: TaskId)
    requires Ready(st, t)
    ensures forall v :: v in st.tasks ==> st.tasks[v].awaiter != Some(t)
    ensures Alive(st, t)
  {
    hide Core, ChansOk, ClosedOk, FrameOk;
    RunningFacts(st, t);
  }

  // ---- A sleep, and an unbounded wait for a descriptor ----

  // Once it is woken it returns, with nothing left registered and nothing else changed.
  lemma PlainReturns(st: State, t: TaskId)
    requires Inv(st) && st.cur == Some(t) && t in st.tasks
    requires st.tasks[t].frame.InSleep? || st.tasks[t].frame.InFd?
    ensures Resume(st, t).Next?
    ensures var st' := Resume(st, t).value;
      && Ready(st', t) && Returned(st, st', t, Unit)
      && TimersOf(st', t) == {} && FdsOf(st', t) == {}
  {
    hide Inv, Places, TimersOf, FdsOf;
    ReturnSafeFrom(st, t);
    RunningPlace(Resume(st, t).value, t);
  }

  // ---- The bounded wait for a descriptor ----

  // It returns true exactly if the descriptor, and not the timer, woke it, and leaves neither
  // registration behind.
  lemma BoundedWaitReturns(st: State, t: TaskId, fd: int, tid: TimerId)
    requires Inv(st) && st.cur == Some(t) && t in st.tasks
    requires st.tasks[t].frame == InFdTimed(fd, tid)
    ensures Resume(st, t).Next?
    ensures var st' := Resume(st, t).value;
      && Ready(st', t) && st'.tasks[t].ret == Flag(!st.tasks[t].wokeByTimer)
      && TimersOf(st', t) == {} && FdsOf(st', t) == {} && OnlyRecord(st, st', t)
      && st'.cur == st.cur && st'.rq == st.rq && st'.io == st.io && st'.fds == st.fds - {fd}
      && st'.timers == (if st.tasks[t].timerDead then st.timers else st.timers - {tid})
      && (st.tasks[t].wokeByTimer ==> st'.timers == st.timers)
  {
    hide Inv, Places, TimersOf, FdsOf;
    ResumeFdTimeoutSafe(st, t, fd, tid);
    TimedFacts(st, t);
    ResumeFdTimeoutIs(st, t, fd, tid);
    hide ResumeFdTimeout;
    RunningPlace(Resume(st, t).value, t);
  }

  lemma TimedFacts(st: State, t: TaskId)
    requires Inv(st) && st.cur == Some(t) && t in st.tasks && st.tasks[t].frame.InFdTimed?
    ensures var x := st.tasks[t];
      && x.timer == x.frame.tid && (x.timerDead || TimerLive(st, t))
      && (x.frame.fd in st.fds ==> st.fds[x.frame.fd] == t)
      && (x.wokeByTimer ==> x.timerDead)
  {
    hide Core, ChansOk, ClosedOk;
    OwnFacts(st, t);
  }
}
