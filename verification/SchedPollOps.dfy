// Parking on the poller, yielding, dispatching and harvesting keep the invariant and reach
// no undefined behaviour.
module SchedPollOps {
  import opened Common
  import opened SchedState
  import opened SchedSteps
  import opened SchedMachine
  import opened SchedInvariant
  import opened SchedCore
  import opened SchedLife
  import opened SchedChans

  // A result that is a state satisfying the invariant, or a deliberate abort.
  ghost predicate Safe(o: Out) {
    match o
    case Next(st) => Inv(st)
    case Abort => true
    case Fault(_) => false
  }

  // The record of t and nothing else; the queues, the poller and the running task apart.
  ghost predicate OnlyRecord(st: State, st': State, t: TaskId) {
    && t in st.tasks && t in st'.tasks && st'.tasks == st.tasks[t := st'.tasks[t]]
    && st'.scopes == st.scopes && st'.chans == st.chans && st'.next == st.next
  }

  ghost predicate SameQueues(st: State, st': State) {
    st'.rq == st.rq && st'.io == st.io && st'.fds == st.fds && st'.timers == st.timers
  }

  // The poller, the scopes and the ids handed out.
  ghost predicate SameElsewhere(st: State, st': State) {
    && st'.io == st.io && st'.fds == st.fds && st'.timers == st.timers
    && st'.scopes == st.scopes && st'.next == st.next
  }

  // The running task t has its answer r and runs on, and of the others only those of d changed.
  ghost predicate Answered(st: State, st': State, t: TaskId, r: Ret, d: set<TaskId>) {
    && t in st.tasks && t in st'.tasks && st'.tasks.Keys == st.tasks.Keys
    && st'.tasks[t] == st.tasks[t].(frame := Running, ret := r) && st'.cur == Some(t)
    && (forall u :: u in st.tasks && u != t && u !in d ==> st'.tasks[u] == st.tasks[u])
    && SameElsewhere(st, st')
  }

  // The running task t suspends itself, in frame f, and no other record changes.
  ghost predicate Suspends(st: State, st': State, t: TaskId, f: Frame) {
    && t in st.tasks && t in st'.tasks && st'.tasks == st.tasks[t := st'.tasks[t]]
    && st'.tasks[t].frame == f && st'.cur == None && st'.rq == st.rq && SameElsewhere(st, st')
  }

  // The call of t is over with r, t runs on, and that is all.
  ghost predicate Returned(st: State, st': State, t: TaskId, r: Ret) {
    && OnlyRecord(st, st', t) && st'.tasks[t] == st.tasks[t].(frame := Running, ret := r)
    && st'.cur == st.cur && SameQueues(st, st')
  }

  lemma PutPut(st: State, t: TaskId, x: Task, y: Task)
    ensures Put(Put(st, t, x), t, y) == Put(st, t, y)
  {
    assert st.tasks[t := x][t := y] == st.tasks[t := y];
  }

  // Nothing waits for, or is registered for, a task that is running its own code.
  lemma RunningFacts(st: State, t: TaskId)
    requires Core(st, {}) && st.cur == Some(t) && t in st.tasks && st.tasks[t].frame.Running?
    ensures Alive(st, t) && FrameOk(st, t) && PlaceOk(st, t, {})
    ensures !st.tasks[t].inRq && !st.tasks[t].onIo && st.tasks[t].park.NotParked?
    ensures t !in st.rq && t !in st.io && NoDup(st.rq) && NoDup(st.io)
    ensures NoRefs(st, t)
    ensures st.tasks[t].deadlineChild == None && st.tasks[t].pending == None
    ensures !st.tasks[t].closedWake
  {
    hide ScopesOk, IdsOk;
    assert PlaceOk(st, t, {});
    assert FrameOk(st, t);
  }

  lemma InvChans(st: State, st': State)
    requires Inv(st) && Core(st', {})
    requires st'.chans == st.chans && st.scopes.Keys <= st'.scopes.Keys
    requires forall t :: SameParked(st, st', t, {}, {})
    ensures Inv(st')
  {
    hide Core;
    forall ch | ch in st.chans ensures st.chans[ch].scope in st'.scopes {
      assert ChanOk(st, ch, {});
    }
    ChansFrame(st, st', {}, {});
  }

  // The running task's own step: it yields, parks outside the channels, or goes on.
  lemma OneTaskInv(st: State, st': State, t: TaskId)
    requires Inv(st) && OneTask(st, st', t, {})
    requires st'.chans == st.chans
    requires !ChanParked(st, t, {}) && !ChanParked(st', t, {})
    ensures Inv(st')
  {
    hide Core, ChansOk, ClosedOk, PlaceOk, FrameOk, OnePoller, OneLinks, OneQueue;
    CoreOneTask(st, st', t, {}, {});
    forall u ensures SameParked(st, st', u, {}, {}) {
      assert u != t && u in st.tasks ==> st'.tasks[u] == st.tasks[u];
    }
    InvChans(st, st');
  }

  // The queues and registrations that go with a task's new record.
  ghost predicate Placed(st: State, st': State, t: TaskId)
    requires t in st'.tasks
  {
    var x := st'.tasks[t];
    && st'.rq == (if x.inRq then st.rq + [t] else st.rq)
    && st'.io == (if x.onIo then [t] + st.io else st.io)
    && st'.timers == (if x.park.OnTimer? || x.park.OnFdTimer? then st.timers[x.timer := t]
                      else st.timers)
    && st'.fds == (if x.park.OnFd? || x.park.OnFdTimer? then st.fds[x.park.fd := t] else st.fds)
    && (x.park.OnTimer? || x.park.OnFdTimer? ==> x.timer !in st.timers)
    && (x.park.OnFd? || x.park.OnFdTimer? ==> FdFree(st, x.park.fd))
  }

  lemma RunningStep(st: State, st': State, t: TaskId)
    requires Inv(st) && st.cur == Some(t) && t in st.tasks && st.tasks[t].frame.Running?
    requires OneRecord(st, st', t) && Placed(st, st', t)
    requires PlaceOk(st', t, {}) && FrameOk(st', t)
    requires !ChanParked(st', t, {}) && st'.chans == st.chans
    ensures Inv(st')
  {
    hide Core, ChansOk, ClosedOk, FrameOk, PlaceOk, OnePoller, OneLinks, NoRefs;
    RunningFacts(st, t);
    NoDupSnoc(st.rq, t);
    NoDupSnoc(st.io, t);
    PlacedPoller(st, st', t);
    hide OneTask;
    assert OneTask(st, st', t, {}) by {
      PlacedTask(st, st', t);
    }
    OneTaskInv(st, st', t);
  }

  lemma PlacedPoller(st: State, st': State, t: TaskId)
    requires OneRecord(st, st', t) && Placed(st, st', t) && NoRefs(st, t)
    requires PlaceOk(st', t, {}) && FrameOk(st', t)
    ensures OnePoller(st, st', t) && OneLinks(st, st', t)
  {
    hide Context;
  }

  lemma PlacedTask(st: State, st': State, t: TaskId)
    requires OneRecord(st, st', t) && Placed(st, st', t)
    requires t !in st.rq && t !in st.io && NoDup(st.rq + [t]) && NoDup([t] + st.io)
    requires NoDup(st.rq) && NoDup(st.io)
    requires OnePoller(st, st', t) && OneLinks(st, st', t) && PlaceOk(st', t, {}) && FrameOk(st', t)
    ensures OneTask(st, st', t, {})
  {
    hide FrameOk, PlaceOk, OnePoller, OneLinks, NoDup;
  }

  // t is behind everyone who is ready, still in its own code, and the pump runs.
  ghost predicate Yielded(st: State, st': State, t: TaskId) {
    && OnlyRecord(st, st', t) && st'.tasks[t].frame.Running?
    && st'.rq == st.rq + [t] && st'.cur == None
    && st'.io == st.io && st'.fds == st.fds && st'.timers == st.timers
  }

  lemma YieldSafe(st: State, t: TaskId)
    requires Inv(st) && st.cur == Some(t) && t in st.tasks && st.tasks[t].frame.Running?
    ensures Yield(st, t).Next? && Inv(Yield(st, t).value)
    ensures Yielded(st, Yield(st, t).value, t)
  {
    hide Core, ChansOk, ClosedOk, NoRefs;
    RunningFacts(st, t);
    var st' := Yield(st, t).value;
    assert FrameOk(st', t);
    hide FrameOk;
    RunningStep(st, st', t);
  }

  // The running task t with record x, on the poller's list, its registrations armed.
  function PollParked(st: State, t: TaskId, x: Task): State {
    Put(st, t, x.(onIo := true))
      .(io := [t] + st.io, cur := None,
        fds := if x.park.OnFd? || x.park.OnFdTimer? then st.fds[x.park.fd := t] else st.fds,
        timers := if x.park.OnTimer? || x.park.OnFdTimer? then st.timers[x.timer := t]
                  else st.timers)
  }

  predicate PollFrame(x: Task) {
    match x.park
    case OnFd(fd) => x.frame == InFd(fd)
    case OnTimer => x.frame.InSleep? && !x.timerDead
    case OnFdTimer(fd) => x.frame == InFdTimed(fd, x.timer) && !x.timerDead
    case _ => false
  }

  lemma PollParkSafe(st: State, t: TaskId, x: Task)
    requires Inv(st) && st.cur == Some(t) && t in st.tasks && st.tasks[t].frame.Running?
    requires x == st.tasks[t].(park := x.park, frame := x.frame, timer := x.timer,
                               timerDead := x.timerDead, wokeByTimer := x.wokeByTimer)
    requires PollFrame(x)
    requires x.park.OnTimer? || x.park.OnFdTimer? ==> x.timer !in st.timers
    requires x.park.OnFd? || x.park.OnFdTimer? ==> FdFree(st, x.park.fd)
    ensures t !in st.io && Inv(PollParked(st, t, x))
  {
    hide Core, ChansOk, ClosedOk, FdFree;
    RunningFacts(st, t);
    hide NoRefs;
    var st' := PollParked(st, t, x);
    assert FrameOk(st', t);
    hide FrameOk;
    RunningStep(st, st', t);
  }

  // t is at the head of the poller's list, in frame f, and the pump runs; the registrations are
  // those given.
  ghost predicate PollerParked(st: State, st': State, t: TaskId, f: Frame, fds: map<int, TaskId>,
                               timers: map<TimerId, TaskId>) {
    && OnlyRecord(st, st', t) && st'.tasks[t].frame == f && st'.io == [t] + st.io
    && st'.cur == None && st'.rq == st.rq && st'.fds == fds && st'.timers == timers
  }

  lemma ParkOnFdSafe(st: State, t: TaskId, fd: int)
    requires Inv(st) && st.cur == Some(t) && t in st.tasks && st.tasks[t].frame.Running?
    requires FdFree(st, fd)
    ensures ParkOnFd(st, t, fd).Next? && Inv(ParkOnFd(st, t, fd).value)
    ensures PollerParked(st, ParkOnFd(st, t, fd).value, t, InFd(fd), st.fds[fd := t], st.timers)
  {
    hide Inv, FdFree;
    var x := st.tasks[t].(park := OnFd(fd), frame := InFd(fd));
    PollParkSafe(st, t, x);
    PutPut(st, t, x, x.(onIo := true));
    assert ParkOnFd(st, t, fd) == Next(PollParked(st, t, x));
  }

  lemma ParkOnFdTimeoutSafe(st: State, t: TaskId, fd: int, arm: Option<TimerId>)
    requires Inv(st) && st.cur == Some(t) && t in st.tasks && st.tasks[t].frame.Running?
    requires FdFree(st, fd) && ArmOk(st, arm)
    ensures ParkOnFdTimeout(st, t, fd, arm).Next? && Inv(ParkOnFdTimeout(st, t, fd, arm).value)
    ensures var st' := ParkOnFdTimeout(st, t, fd, arm).value;
      if arm == None then Returned(st, st', t, Flag(false))
      else PollerParked(st, st', t, InFdTimed(fd, arm.value), st.fds[fd := t],
                        st.timers[arm.value := t])
  {
    hide Core, ChansOk, ClosedOk, FdFree, FrameOk, NoRefs;
    if arm == None {
      RunningFacts(st, t);
      ReturnSafe(st, t, st.tasks[t].(ret := Flag(false)));
    } else {
      var x := st.tasks[t].(park := OnFdTimer(fd), frame := InFdTimed(fd, arm.value),
                            timer := arm.value, timerDead := false, wokeByTimer := false);
      PollParkSafe(st, t, x);
      PutPut(st, t, x, x.(onIo := true));
      assert ParkOnFdTimeout(st, t, fd, arm) == Next(PollParked(st, t, x));
    }
  }

  lemma SleepSafe(st: State, t: TaskId, arm: Option<TimerId>)
    requires Inv(st) && st.cur == Some(t) && t in st.tasks && st.tasks[t].frame.Running?
    requires ArmOk(st, arm)
    ensures Safe(Sleep(st, t, arm)) && (Sleep(st, t, arm).Abort? <==> arm == None)
    ensures arm.Some? ==>
              PollerParked(st, Sleep(st, t, arm).value, t, InSleep, st.fds, st.timers[arm.value := t])
  {
    hide Inv, FdFree;
    if arm.Some? {
      var x := st.tasks[t].(park := OnTimer, frame := InSleep, timer := arm.value,
                            timerDead := false);
      PollParkSafe(st, t, x);
      PutPut(st, t, x, x.(onIo := true));
      assert Sleep(st, t, arm) == Next(PollParked(st, t, x));
    }
  }

  // ---- Continuing after a poller park ----

  // The running or resuming task only changes its own record.
  lemma OwnStep(st: State, st': State, t: TaskId)
    requires Inv(st) && st.cur == Some(t) && t in st.tasks
    requires OneRecord(st, st', t) && st'.cur == st.cur
    requires st'.rq == st.rq && st'.io == st.io && st'.chans == st.chans
    requires st'.tasks[t].inRq == st.tasks[t].inRq && st'.tasks[t].onIo == st.tasks[t].onIo
    requires st'.tasks[t].park == st.tasks[t].park
    requires OnePoller(st, st', t) && OneLinks(st, st', t) && FrameOk(st', t)
    ensures Inv(st')
  {
    OwnFacts(st, t);
    hide Core, ChansOk, ClosedOk, OnePoller, OneLinks, FrameOk;
    assert OneTask(st, st', t, {});
    hide OneTask;
    OneTaskInv(st, st', t);
  }

  lemma OwnFacts(st: State, t: TaskId)
    requires Core(st, {}) && st.cur == Some(t) && t in st.tasks
    ensures Alive(st, t) && FrameOk(st, t) && PlaceOk(st, t, {})
    ensures !st.tasks[t].inRq && !st.tasks[t].onIo && st.tasks[t].park.NotParked?
    ensures t !in st.rq && t !in st.io && NoDup(st.rq) && NoDup(st.io)
  {
    hide ScopesOk, IdsOk, LinksOk, PollerOk;
    assert PlaceOk(st, t, {});
  }

  // What a task that resumes from the poller still has registered.
  lemma OwnPoller(st: State, t: TaskId)
    requires Core(st, {}) && st.cur == Some(t) && t in st.tasks
    ensures forall tid :: tid in st.timers && st.timers[tid] == t ==>
              st.tasks[t].frame.InFdTimed? && st.tasks[t].timer == tid && !st.tasks[t].timerDead
    ensures forall fd :: fd in st.fds && st.fds[fd] == t ==>
              st.tasks[t].frame.InFdTimed? && st.tasks[t].frame.fd == fd
  {
    OwnFacts(st, t);
    hide ScopesOk, IdsOk, LinksOk, FramesOk, PlacesOk, QueuesOk;
  }

  lemma OwnLinks(st: State, t: TaskId)
    requires Core(st, {}) && st.cur == Some(t) && t in st.tasks
    ensures forall u :: u in st.tasks && st.tasks[u].awaiter == Some(t) ==>
              st.tasks[t].frame.InDeadline? && st.tasks[t].frame.child == u
    ensures forall s :: s in st.scopes ==> st.scopes[s].waiter != Some(t)
  {
    hide ScopesOk, IdsOk, PollerOk, FramesOk, QueuesOk, PlacesOk;
  }

  // Returning from a park that left nothing behind.
  lemma ReturnSafe(st: State, t: TaskId, x: Task)
    requires Inv(st) && st.cur == Some(t) && t in st.tasks
    requires !st.tasks[t].frame.InFdTimed? && !st.tasks[t].frame.InDeadline?
    requires x.frame.Running? && SameLife(st.tasks[t], x) && x.awaiter == st.tasks[t].awaiter
    requires !x.inRq && !x.onIo && x.park.NotParked? && x.deadlineChild == None
    requires x.pending == None && !x.closedWake
    ensures Inv(Put(st, t, x))
  {
    hide Core, ChansOk, ClosedOk;
    OwnFacts(st, t);
    OwnPoller(st, t);
    OwnLinks(st, t);
    OwnStep(st, Put(st, t, x), t);
  }

  // The state in which a bounded read returns, whichever registration fired.
  function RetiredRead(st: State, t: TaskId, fd: int): State
    requires t in st.tasks
  {
    var x := st.tasks[t];
    Put(st, t, x.(frame := Running, timerDead := true, ret := Flag(!x.wokeByTimer)))
      .(fds := st.fds - {fd}, timers := if x.timerDead then st.timers else st.timers - {x.timer})
  }

  lemma ResumeFdTimeoutIs(st: State, t: TaskId, fd: int, tid: TimerId)
    requires t in st.tasks && st.tasks[t].timer == tid
    requires st.tasks[t].timerDead || TimerLive(st, t)
    requires fd in st.fds ==> st.fds[fd] == t
    ensures ResumeFdTimeout(st, t, fd, tid) == Next(RetiredRead(st, t, fd))
  {
    var x := st.tasks[t];
    PutPut(st, t, x.(timerDead := true),
           x.(frame := Running, timerDead := true, ret := Flag(!x.wokeByTimer)));
  }

  // A bounded read retires whichever registration did not fire; both teardowns are its own.
  lemma ResumeFdTimeoutSafe(st: State, t: TaskId, fd: int, tid: TimerId)
    requires Inv(st) && st.cur == Some(t) && t in st.tasks
    requires st.tasks[t].frame == InFdTimed(fd, tid)
    ensures ResumeFdTimeout(st, t, fd, tid).Next? && Inv(ResumeFdTimeout(st, t, fd, tid).value)
  {
    hide Core, ChansOk, ClosedOk, RetiredRead;
    OwnFacts(st, t);
    ResumeFdTimeoutIs(st, t, fd, tid);
    RetiredMove(st, t, fd);
    hide FrameOk, OnePoller, OneLinks, ResumeFdTimeout;
    OwnStep(st, RetiredRead(st, t, fd), t);
  }

  lemma RetiredMove(st: State, t: TaskId, fd: int)
    requires Inv(st) && st.cur == Some(t) && t in st.tasks
    requires st.tasks[t].frame.InFdTimed? && st.tasks[t].frame.fd == fd
    ensures var st' := RetiredRead(st, t, fd);
      && OneRecord(st, st', t) && st'.cur == st.cur
      && st'.rq == st.rq && st'.io == st.io && st'.chans == st.chans
      && st'.tasks[t].inRq == st.tasks[t].inRq && st'.tasks[t].onIo == st.tasks[t].onIo
      && st'.tasks[t].park == st.tasks[t].park
      && OnePoller(st, st', t) && OneLinks(st, st', t) && FrameOk(st', t)
  {
    hide Core, ChansOk, ClosedOk;
    OwnFacts(st, t);
    OwnPoller(st, t);
    OwnLinks(st, t);
    assert FrameOk(RetiredRead(st, t, fd), t);
    hide FrameOk;
  }

  // ---- The pump ----

  lemma ReadyFacts(st: State, t: TaskId)
    requires Core(st, {}) && st.cur == None && t in st.rq
    ensures Alive(st, t) && FrameOk(st, t) && PlaceOk(st, t, {}) && st.tasks[t].inRq
    ensures NoDup(st.rq) && NoDup(st.io) && t !in st.io
    ensures forall tid :: tid in st.timers && st.timers[tid] == t ==>
              st.tasks[t].frame.InFdTimed? && st.tasks[t].timer == tid && !st.tasks[t].timerDead
    ensures forall fd :: fd in st.fds && st.fds[fd] == t ==>
              st.tasks[t].frame.InFdTimed? && st.tasks[t].frame.fd == fd
    ensures forall u :: u in st.tasks && st.tasks[u].awaiter == Some(t) ==>
              st.tasks[t].frame.InDeadline? && st.tasks[t].frame.child == u
    ensures forall s :: s in st.scopes ==> st.scopes[s].waiter != Some(t)
  {
    hide ScopesOk, IdsOk;
    assert PlaceOk(st, t, {});
  }

  // The head of the ready queue runs.
  ghost predicate Dispatched(st: State, st': State) {
    && st.rq != [] && var t := st.rq[0];
    && OnlyRecord(st, st', t) && st'.tasks[t] == st.tasks[t].(inRq := false)
    && st'.cur == Some(t) && st'.rq == st.rq[1..]
    && st'.io == st.io && st'.fds == st.fds && st'.timers == st.timers
  }

  // The pump takes the head of the ready queue and runs it.
  lemma DispatchSafe(st: State)
    requires Inv(st) && st.cur == None
    ensures Safe(Dispatch(st)) && (Dispatch(st).Abort? <==> st.rq == [])
    ensures st.rq != [] ==> Dispatched(st, Dispatch(st).value)
  {
    hide Core, ChansOk, ClosedOk;
    if st.rq != [] {
      var t := st.rq[0];
      ReadyFacts(st, t);
      NoDupTail(st.rq);
      var st' := Dispatch(st).value;
      DispatchFrame(st, t);
      hide FrameOk;
      OneTaskInv(st, st', t);
    }
  }

  lemma DispatchFrame(st: State, t: TaskId)
    requires st.cur == None && st.rq != [] && t == st.rq[0] && t in st.tasks && FrameOk(st, t)
    requires st.tasks[t].inRq
    ensures FrameOk(Dispatch(st).value, t)
  {
    assert Context(Dispatch(st).value, t) == Context(st, t);
  }

  // Task w off the poller list and at the end of the ready queue.
  function Roused(st: State, w: TaskId, byTimer: bool): State
    requires w in st.tasks
  {
    Put(st, w, st.tasks[w].(wokeByTimer := byTimer, expired := byTimer, onIo := false,
                            park := NotParked, inRq := true))
      .(rq := st.rq + [w], io := Without(st.io, {w}))
  }

  lemma WakeFromIoIs(st: State, w: TaskId, byTimer: bool)
    requires w in st.tasks && st.tasks[w].onIo && w in st.io && w !in st.rq
    ensures WakeFromIo(st, w, byTimer) == Next(Roused(st, w, byTimer))
  {
    var x := st.tasks[w].(wokeByTimer := byTimer, expired := byTimer);
    var y := x.(onIo := false);
    var z := y.(park := NotParked);
    PutPut(st, w, x, y);
    PutPut(st, w, y, z);
    PutPut(st, w, z, z.(inRq := true));
  }

  lemma ParkedFacts(st: State, w: TaskId)
    requires Core(st, {}) && w in st.tasks && Alive(st, w) && st.tasks[w].onIo
    ensures FrameOk(st, w) && PlaceOk(st, w, {}) && !Woken(st, w)
    ensures w in st.io && w !in st.rq && NoDup(st.rq) && NoDup(st.io)
    ensures TimerFacts(st, w)
    ensures forall u :: u in st.tasks && st.tasks[u].awaiter == Some(w) ==>
              st.tasks[w].frame.InDeadline? && st.tasks[w].frame.child == u
    ensures forall s :: s in st.scopes ==> st.scopes[s].waiter != Some(w)
    ensures !ChanParked(st, w, {})
    ensures st.tasks[w].frame.InDeadline? ==>
              st.tasks[w].frame.child in st.tasks && !st.tasks[st.tasks[w].frame.child].done
  {
    hide ScopesOk, IdsOk;
    assert PlaceOk(st, w, {});
    assert FrameOk(st, w);
    if st.tasks[w].frame.InDeadline? {
      assert PlaceOk(st, st.tasks[w].frame.child, {});
    }
  }

  ghost predicate TimerFacts(st: State, w: TaskId)
    requires w in st.tasks
  {
    && (forall tid :: tid in st.timers && st.timers[tid] == w ==>
          && st.tasks[w].timer == tid && !st.tasks[w].timerDead
          && (st.tasks[w].frame.InFdTimed? ||
              ((st.tasks[w].frame.InSleep? || st.tasks[w].frame.InDeadline?) && st.tasks[w].onIo)))
    && (forall fd :: fd in st.fds && st.fds[fd] == w ==>
          st.tasks[w].frame == InFd(fd)
          || (st.tasks[w].frame.InFdTimed? && st.tasks[w].frame.fd == fd))
  }

  // A poller-parked task is woken, with one of its registrations gone.
  lemma RouseInv(st: State, st1: State, w: TaskId, byTimer: bool)
    requires Inv(st) && w in st.tasks && Alive(st, w) && st.tasks[w].onIo
    requires w in st1.tasks && st1 == st.(tasks := st.tasks[w := st1.tasks[w]], fds := st1.fds,
                                          timers := st1.timers)
    requires st1.tasks[w] == st.tasks[w].(timerDead := st1.tasks[w].timerDead)
    requires FrameOk(Roused(st1, w, byTimer), w) && OnePoller(st, Roused(st1, w, byTimer), w)
    ensures WakeFromIo(st1, w, byTimer).Next? && Inv(WakeFromIo(st1, w, byTimer).value)
  {
    hide Core, ChansOk, ClosedOk, FrameOk, OnePoller;
    ParkedFacts(st, w);
    WakeFromIoIs(st1, w, byTimer);
    hide WakeFromIo;
    RouseMove(st, st1, w, byTimer);
    hide OneTask;
    OneTaskInv(st, Roused(st1, w, byTimer), w);
  }

  lemma RouseMove(st: State, st1: State, w: TaskId, byTimer: bool)
    requires Inv(st) && w in st.tasks && Alive(st, w) && st.tasks[w].onIo
    requires w in st1.tasks && st1 == st.(tasks := st.tasks[w := st1.tasks[w]], fds := st1.fds,
                                          timers := st1.timers)
    requires st1.tasks[w] == st.tasks[w].(timerDead := st1.tasks[w].timerDead)
    requires FrameOk(Roused(st1, w, byTimer), w) && OnePoller(st, Roused(st1, w, byTimer), w)
    ensures OneTask(st, Roused(st1, w, byTimer), w, {})
  {
    hide Core, ChansOk, ClosedOk, FrameOk, OnePoller;
    ParkedFacts(st, w);
    var st' := Roused(st1, w, byTimer);
    WithoutKeepsNoDup(st.io, {w});
    NoDupSnoc(st.rq, w);
    PutPut(st, w, st1.tasks[w], st'.tasks[w]);
  }

  lemma FdReadySafe(st: State, fd: int)
    requires Inv(st) && st.cur == None && fd in st.fds
    ensures HarvestOne(st, FdReady(fd)).Next? && Inv(HarvestOne(st, FdReady(fd)).value)
  {
    hide Core, ChansOk, ClosedOk;
    var w := st.fds[fd];
    FdOwner(st, fd);
    if st.tasks[w].onIo {
      FdReadyParked(st, fd);
    } else {
      FdReadyWoken(st, fd);
    }
  }

  lemma FdReadyParked(st: State, fd: int)
    requires Inv(st) && st.cur == None && fd in st.fds
    requires Alive(st, st.fds[fd]) && st.tasks[st.fds[fd]].onIo
    ensures var o := WakeFromIo(st.(fds := st.fds - {fd}), st.fds[fd], false);
      o.Next? && Inv(o.value)
  {
    hide Core, ChansOk, ClosedOk, WakeFromIo;
    var w := st.fds[fd];
    ParkedFacts(st, w);
    var st1 := st.(fds := st.fds - {fd});
    assert st.tasks[w := st.tasks[w]] == st.tasks;
    RouseInv(st, st1, w, false);
  }

  lemma FdReadyWoken(st: State, fd: int)
    requires Inv(st) && st.cur == None && fd in st.fds
    requires Alive(st, st.fds[fd]) && !st.tasks[st.fds[fd]].onIo
    requires st.tasks[st.fds[fd]].frame.InFdTimed?
    ensures var o := WakeFromIo(st.(fds := st.fds - {fd}), st.fds[fd], false);
      o.Next? && Inv(o.value)
  {
    hide Core, ChansOk, ClosedOk;
    var w := st.fds[fd];
    var st1 := st.(fds := st.fds - {fd});
    FdWokenFacts(st, w);
    assert FrameOk(st1, w);
    hide FrameOk;
    OneTaskInv(st, st1, w);
  }

  lemma FdOwner(st: State, fd: int)
    requires Core(st, {}) && fd in st.fds
    ensures var w := st.fds[fd];
      && Alive(st, w)
      && (|| (st.tasks[w].frame == InFd(fd) && st.tasks[w].onIo)
          || (st.tasks[w].frame.InFdTimed? && st.tasks[w].frame.fd == fd))
  {
    hide ScopesOk, IdsOk, QueuesOk, PlacesOk, FramesOk, LinksOk;
  }

  // The second event of a batch for a task the first has woken.
  lemma FdWokenFacts(st: State, w: TaskId)
    requires Core(st, {}) && w in st.tasks && Alive(st, w) && !st.tasks[w].onIo
    requires st.tasks[w].frame.InFdTimed?
    ensures FrameOk(st, w) && PlaceOk(st, w, {}) && Woken(st, w)
    ensures NoDup(st.rq) && NoDup(st.io) && w !in st.io && (w in st.rq <==> st.tasks[w].inRq)
    ensures TimerFacts(st, w) && !ChanParked(st, w, {})
    ensures forall u :: u in st.tasks ==> st.tasks[u].awaiter != Some(w)
    ensures forall s :: s in st.scopes ==> st.scopes[s].waiter != Some(w)
  {
    hide ScopesOk, IdsOk;
    assert PlaceOk(st, w, {});
    assert FrameOk(st, w);
  }

  lemma TimerOwner(st: State, tid: TimerId)
    requires Core(st, {}) && tid in st.timers
    ensures var w := st.timers[tid];
      && Alive(st, w) && st.tasks[w].timer == tid && !st.tasks[w].timerDead
      && (st.tasks[w].frame.InFdTimed? ||
          ((st.tasks[w].frame.InSleep? || st.tasks[w].frame.InDeadline?) && st.tasks[w].onIo))
  {
    hide ScopesOk, IdsOk, QueuesOk, PlacesOk, FramesOk, LinksOk;
  }

  function TimerGone(st: State, tid: TimerId): State
    requires tid in st.timers && st.timers[tid] in st.tasks
  {
    var w := st.timers[tid];
    Put(st, w, st.tasks[w].(timerDead := true)).(timers := st.timers - {tid})
  }

  // A fired timer is torn down once, while its id still belongs to the task.
  lemma TimerFiredSafe(st: State, tid: TimerId)
    requires Inv(st) && st.cur == None && tid in st.timers
    ensures HarvestOne(st, TimerFired(tid)).Next? && Inv(HarvestOne(st, TimerFired(tid)).value)
  {
    hide Core, ChansOk, ClosedOk, WakeFromIo;
    var w := st.timers[tid];
    TimerOwner(st, tid);
    assert RemoveTimerOnce(st, w, st.tasks[w].timer) == Next(TimerGone(st, tid));
    if st.tasks[w].onIo {
      TimerParked(st, tid);
    } else {
      TimerWoken(st, tid);
    }
  }

  lemma TimerParked(st: State, tid: TimerId)
    requires Inv(st) && st.cur == None && tid in st.timers
    requires Alive(st, st.timers[tid]) && st.tasks[st.timers[tid]].onIo
    requires st.tasks[st.timers[tid]].timer == tid && !st.tasks[st.timers[tid]].timerDead
    ensures var o := WakeFromIo(TimerGone(st, tid), st.timers[tid], true); o.Next? && Inv(o.value)
  {
    hide Core, ChansOk, ClosedOk, WakeFromIo;
    var w := st.timers[tid];
    ParkedFacts(st, w);
    RouseInv(st, TimerGone(st, tid), w, true);
  }

  lemma TimerWoken(st: State, tid: TimerId)
    requires Inv(st) && st.cur == None && tid in st.timers
    requires Alive(st, st.timers[tid]) && !st.tasks[st.timers[tid]].onIo
    requires st.tasks[st.timers[tid]].timer == tid && !st.tasks[st.timers[tid]].timerDead
    requires st.tasks[st.timers[tid]].frame.InFdTimed?
    ensures var o := WakeFromIo(TimerGone(st, tid), st.timers[tid], true); o.Next? && Inv(o.value)
  {
    hide Core, ChansOk, ClosedOk;
    var w := st.timers[tid];
    var st1 := TimerGone(st, tid);
    FdWokenFacts(st, w);
    assert FrameOk(st1, w);
    hide FrameOk;
    OneTaskInv(st, st1, w);
  }

  // One event's harvest leaves the rest of its batch registered.
  lemma HarvestOneRest(st: State, e: Event, e': Event)
    requires Inv(st) && st.cur == None
    requires Registered(st, e) && Registered(st, e') && e != e'
    requires HarvestOne(st, e).Next?
    ensures Registered(HarvestOne(st, e).value, e') && HarvestOne(st, e).value.cur == None
  {
    hide Core, ChansOk, ClosedOk;
    if e.TimerFired? {
      TimerOwner(st, e.tid);
    }
  }

  // The first event of a batch is harvested, and the rest is still a batch.
  lemma HarvestHead(st: State, batch: seq<Event>)
    requires Inv(st) && st.cur == None && BatchOk(st, batch) && batch != []
    ensures HarvestOne(st, batch[0]).Next?
    ensures var st1 := HarvestOne(st, batch[0]).value;
      Inv(st1) && st1.cur == None && BatchOk(st1, batch[1..])
  {
    hide Core, ChansOk, ClosedOk, HarvestOne;
    var e := batch[0];
    assert Registered(st, e);
    match e {
      case FdReady(fd) => FdReadySafe(st, fd);
      case TimerFired(tid) => TimerFiredSafe(st, tid);
    }
    var st1 := HarvestOne(st, e).value;
    forall i | 0 <= i < |batch| - 1 ensures Registered(st1, batch[1..][i]) {
      HarvestOneRest(st, e, batch[i + 1]);
    }
    HarvestCur(st, e);
  }

  lemma {:induction false} HarvestSafe(st: State, batch: seq<Event>)
    requires Inv(st) && st.cur == None && BatchOk(st, batch)
    ensures Harvest(st, batch).Next? && Inv(Harvest(st, batch).value)
    decreases |batch|
  {
    hide Inv, HarvestOne;
    if batch != [] {
      HarvestHead(st, batch);
      HarvestSafe(HarvestOne(st, batch[0]).value, batch[1..]);
    }
  }

  lemma HarvestCur(st: State, e: Event)
    requires HarvestOne(st, e).Next?
    ensures HarvestOne(st, e).value.cur == st.cur
  {
  }
}
