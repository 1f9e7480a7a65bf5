// The scheduler as a state machine: which step can be taken in a state, what it does, and
// what the C code asks of its callers without checking it.
module SchedMachine {
  import opened Common
  import opened SchedState
  import opened SchedSteps

  datatype Op =
    | Pump                                     // pump_loop: pop the ready queue, or deadlock
    | Poll(batch: seq<Event>)                  // pump_loop: one sprout_poll_wait and its batch
    | Continue                                 // the code after a park
    | DoYield
    | DoFinish(result: int)
    | DoScopeOpen
    | DoSpawn(scope: ScopeId, awaitable: bool)
    | DoAwait(task: TaskId)
    | DoAwaitDeadline(scope: ScopeId, task: TaskId, arm: Option<TimerId>)
    | DoJoin(scope: ScopeId)
    | DoCancel(scope: ScopeId, all: seq<ChanId>)
    | DoParkFd(fd: int)
    | DoParkFdTimeout(fd: int, arm: Option<TimerId>)
    | DoSleep(arm: Option<TimerId>)
    | DoChanNew(scope: ScopeId, cap: int)
    | DoSend(chan: ChanId, value: int)
    | DoRecv(chan: ChanId)
    | DoClose(chan: ChanId)
    | DoSelect(chans: seq<ChanId>)

  predicate Alive(st: State, t: TaskId) {
    t in st.tasks && !st.tasks[t].done && !st.tasks[t].dropped
  }

  // Suspended in the poller, on a channel queue or in a select: what a cancel or an expired
  // deadline drops.
  predicate Droppable(st: State, t: TaskId)
    requires t in st.tasks
  {
    st.tasks[t].onIo || st.tasks[t].park.OnChan? || st.tasks[t].park.OnSelect?
  }

  // ---- What the poller guarantees ----

  predicate Registered(st: State, e: Event) {
    match e
    case FdReady(fd) => fd in st.fds
    case TimerFired(tid) => tid in st.timers
  }

  ghost predicate BatchOk(st: State, batch: seq<Event>) {
    && NoDup(batch)
    && forall i :: 0 <= i < |batch| ==> Registered(st, batch[i])
  }

  predicate ArmOk(st: State, arm: Option<TimerId>) {
    arm.Some? ==> arm.value !in st.timers
  }

  // ---- What the callers guarantee ----

  // One task at a time waits on an fd (sprout_poll.c:11-12).
  ghost predicate FdFree(st: State, fd: int) {
    && fd !in st.fds
    && forall u :: u in st.tasks && Alive(st, u) && st.tasks[u].frame.InFdTimed? ==>
         st.tasks[u].frame.fd != fd
  }

  // A task is awaited by at most one task; a deadline owner that yields to its child still
  // counts as its awaiter.
  ghost predicate Unawaited(st: State, u: TaskId)
    requires u in st.tasks
  {
    && st.tasks[u].awaiter == None
    && forall o :: o in st.tasks && Alive(st, o) && st.tasks[o].frame.InDeadlineYield? ==>
         st.tasks[o].frame.child != u
  }

  // A task is awaited from inside the scope it was forked into.
  predicate AwaitedInside(st: State, t: TaskId, u: TaskId)
    requires t in st.tasks && u in st.tasks
  {
    st.tasks[u].scope.Some? && st.tasks[u].scope.value in Context(st, t)
  }

  // A task that has an inner scope open is not dropped; a deadline owner makes the drop abort.
  predicate NoOpenScope(st: State, t: TaskId)
    requires t in st.tasks
  {
    st.tasks[t].nest == [] || st.tasks[t].deadlineChild.Some?
  }

  ghost predicate CallerOk(st: State, t: TaskId, op: Op)
    requires t in st.tasks
  {
    match op
    case Continue =>
      var f := st.tasks[t].frame;
      (f.InDeadline? || f.InDeadlineYield?) && f.child in st.tasks && Droppable(st, f.child) ==>
        NoOpenScope(st, f.child)
    case DoFinish(_) => st.tasks[t].scope.Some? && st.tasks[t].nest == []
    case DoSpawn(s, _) => s in Context(st, t)
    case DoAwait(u) => u in st.tasks ==> AwaitedInside(st, t, u) && Unawaited(st, u)
    case DoAwaitDeadline(s, u, arm) =>
      && ArmOk(st, arm)
      && (s in st.scopes && u in st.tasks ==>
            st.scopes[s].owner == t && st.tasks[u].scope == Some(s) && Alive(st, u) &&
            Unawaited(st, u))
    case DoJoin(s) => st.tasks[t].nest != [] && s == st.tasks[t].nest[|st.tasks[t].nest| - 1]
    case DoCancel(s, all) =>
      && NoDup(all) && (forall ch :: ch in all <==> ch in st.chans)
      && forall u | u in st.tasks && Alive(st, u) && st.tasks[u].scope == Some(s) ::
           Droppable(st, u) ==> NoOpenScope(st, u)
    case DoParkFd(fd) => FdFree(st, fd)
    case DoParkFdTimeout(fd, arm) => FdFree(st, fd) && ArmOk(st, arm)
    case DoSleep(arm) => ArmOk(st, arm)
    case _ => true
  }

  // ---- Steps ----

  ghost predicate Enabled(st: State, op: Op) {
    match op
    case Pump => st.cur == None && (st.rq != [] || st.io == [])
    case Poll(batch) => st.cur == None && st.rq == [] && st.io != [] && BatchOk(st, batch)
    case _ =>
      && st.cur.Some?
      && (st.cur.value in st.tasks ==>
            && (op.Continue? <==> !st.tasks[st.cur.value].frame.Running?)
            && CallerOk(st, st.cur.value, op))
  }

  function Exec(st: State, op: Op): Out {
    match op
    case Pump => Dispatch(st)
    case Poll(batch) => Harvest(st, batch)
    case _ =>
      if st.cur == None || st.cur.value !in st.tasks then Fault(Dangling)
      else Call(st, st.cur.value, op)
  }

  function Call(st: State, t: TaskId, op: Op): Out
    requires t in st.tasks && !op.Pump? && !op.Poll?
  {
    match op
    case Continue => Resume(st, t)
    case DoYield => Yield(st, t)
    case DoFinish(r) => Finish(st, t, r)
    case DoScopeOpen => ScopeOpen(st, t)
    case DoSpawn(s, a) => Spawn(st, t, s, a)
    case DoAwait(u) => Await(st, t, u)
    case DoAwaitDeadline(s, u, arm) => AwaitDeadline(st, t, s, u, arm)
    case DoJoin(s) => Join(st, t, s)
    case DoCancel(s, all) => Cancel(st, t, s, all)
    case DoParkFd(fd) => ParkOnFd(st, t, fd)
    case DoParkFdTimeout(fd, arm) => ParkOnFdTimeout(st, t, fd, arm)
    case DoSleep(arm) => Sleep(st, t, arm)
    case DoChanNew(s, cap) => ChanNew(st, t, s, cap)
    case DoSend(ch, v) => Send(st, t, ch, v)
    case DoRecv(ch) => RecvOp(st, t, ch)
    case DoClose(ch) => Close(st, t, ch)
    case DoSelect(chs) => Select(st, t, chs)
  }

  // A run is a sequence of steps, each enabled where it is taken.
  ghost predicate Legal(st: State, ops: seq<Op>)
    decreases |ops|
  {
    ops == [] ||
    (Enabled(st, ops[0]) && (Exec(st, ops[0]).Next? ==> Legal(Exec(st, ops[0]).value, ops[1..])))
  }

  function Run(st: State, ops: seq<Op>): Out
    decreases |ops|
  {
    if ops == [] then Next(st)
    else
      var st1 :- Exec(st, ops[0]);
      Run(st1, ops[1..])
  }
}
