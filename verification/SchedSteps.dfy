// Every builtin of runtime/sprout_scheduler.c as a function on states, split where the C
// code switches to the pump. A function returns Abort where the C code calls sprout_fail
// and Fault where it would be undefined.
module SchedSteps {
  import opened Common
  import opened SchedState

  type Out = Outcome<State>

  function Put(st: State, t: TaskId, x: Task): State {
    st.(tasks := st.tasks[t := x])
  }

  function PutChan(st: State, ch: ChanId, c: Chan): State {
    st.(chans := st.chans[ch := c])
  }

  // ---- Queues ----

  function RqPush(st: State, t: TaskId): Out {
    if t !in st.tasks then Fault(Dangling)
    else if t in st.rq then Fault(DoubleWake)
    else Next(Put(st, t, st.tasks[t].(inRq := true)).(rq := st.rq + [t]))
  }

  function IoPush(st: State, t: TaskId): Out {
    if t !in st.tasks then Fault(Dangling)
    else if t in st.io then Fault(BadUnlink)
    else Next(Put(st, t, st.tasks[t].(onIo := true)).(io := [t] + st.io))
  }

  function IoRemove(st: State, t: TaskId): Out {
    if t !in st.tasks then Fault(Dangling)
    else if t !in st.io then Fault(BadUnlink)
    else Next(Put(st, t, st.tasks[t].(onIo := false)).(io := Without(st.io, {t})))
  }

  // Clears the park and makes the task runnable (chan_wake, the end of select_fire).
  function Wake(st: State, t: TaskId): Out {
    if t !in st.tasks then Fault(Dangling)
    else RqPush(Put(st, t, st.tasks[t].(park := NotParked)), t)
  }

  // ---- Poller ----

  // sprout_poll_remove_timer(tid) for task t, and park_timer_dead = 1.
  function RemoveTimer(st: State, t: TaskId, tid: TimerId): Out {
    if t !in st.tasks then Fault(Dangling)
    else if tid !in st.timers || st.timers[tid] != t then Fault(ForeignTimer)
    else Next(Put(st, t, st.tasks[t].(timerDead := true)).(timers := st.timers - {tid}))
  }

  function RemoveTimerOnce(st: State, t: TaskId, tid: TimerId): Out {
    if t !in st.tasks then Fault(Dangling)
    else if st.tasks[t].timerDead then Next(st)
    else RemoveTimer(st, t, tid)
  }

  // sprout_poll_remove: ignores an fd that is not registered.
  function RemoveFd(st: State, t: TaskId, fd: int): Out {
    if fd in st.fds && st.fds[fd] != t then Fault(ForeignFd)
    else Next(st.(fds := st.fds - {fd}))
  }

  // ---- The pump ----

  // One rq_pop and the switch into the task.
  function Dispatch(st: State): Out {
    if st.rq == [] then Abort
    else
      var t := st.rq[0];
      if t !in st.tasks then Fault(Dangling)
      else Next(Put(st, t, st.tasks[t].(inRq := false)).(rq := st.rq[1..], cur := Some(t)))
  }

  datatype Event = FdReady(fd: int) | TimerFired(tid: TimerId)

  // One entry of a poll batch: tear down a fired timer, then wake the task unless the batch
  // has already woken it.
  function HarvestOne(st: State, e: Event): Out {
    match e
    case FdReady(fd) =>
      if fd !in st.fds then Fault(ForeignFd)
      else WakeFromIo(st.(fds := st.fds - {fd}), st.fds[fd], false)
    case TimerFired(tid) =>
      if tid !in st.timers then Fault(ForeignTimer)
      else
        var w := st.timers[tid];
        if w !in st.tasks then Fault(Dangling)
        else
          var st1 :- RemoveTimerOnce(st, w, st.tasks[w].timer);
          WakeFromIo(st1, w, true)
  }

  function WakeFromIo(st: State, w: TaskId, byTimer: bool): Out {
    if w !in st.tasks then Fault(Dangling)
    else if !st.tasks[w].onIo then Next(st)
    else
      var st1 :- IoRemove(Put(st, w, st.tasks[w].(wokeByTimer := byTimer, expired := byTimer)), w);
      Wake(st1, w)
  }

  function Harvest(st: State, batch: seq<Event>): Out
    decreases |batch|
  {
    if batch == [] then Next(st)
    else
      var st1 :- HarvestOne(st, batch[0]);
      Harvest(st1, batch[1..])
  }

  // ---- Parking on the poller ----

  function ParkOnFd(st: State, t: TaskId, fd: int): Out
    requires t in st.tasks
  {
    var st1 := Put(st, t, st.tasks[t].(park := OnFd(fd), frame := InFd(fd)));
    var st2 :- IoPush(st1, t);
    Next(st2.(fds := st2.fds[fd := t], cur := None))
  }

  // arm is the id the poller gives the new timer, or None when it cannot arm one.
  function ParkOnFdTimeout(st: State, t: TaskId, fd: int, arm: Option<TimerId>): Out
    requires t in st.tasks
  {
    match arm
    case None => Next(Put(st, t, st.tasks[t].(ret := Flag(false))))
    case Some(tid) =>
      var x := st.tasks[t].(park := OnFdTimer(fd), frame := InFdTimed(fd, tid), timer := tid,
                            timerDead := false, wokeByTimer := false);
      var st2 :- IoPush(Put(st, t, x), t);
      Next(st2.(fds := st2.fds[fd := t], timers := st2.timers[tid := t], cur := None))
  }

  function ResumeFdTimeout(st: State, t: TaskId, fd: int, tid: TimerId): Out
    requires t in st.tasks
  {
    var st1 :- RemoveFd(st, t, fd);
    var st2 :- RemoveTimerOnce(st1, t, tid);
    if t !in st2.tasks then Fault(Dangling)
    else
      var x := st2.tasks[t];
      Next(Put(st2, t, x.(frame := Running, ret := Flag(!x.wokeByTimer))))
  }

  function Sleep(st: State, t: TaskId, arm: Option<TimerId>): Out
    requires t in st.tasks
  {
    match arm
    case None => Abort
    case Some(tid) =>
      var x := st.tasks[t].(park := OnTimer, frame := InSleep, timer := tid, timerDead := false);
      var st2 :- IoPush(Put(st, t, x), t);
      Next(st2.(timers := st2.timers[tid := t], cur := None))
  }

  function Yield(st: State, t: TaskId): Out {
    RqPush(st.(cur := None), t)
  }

  // ---- Scopes ----

  function Innermost(x: Task): Option<ScopeId> {
    if x.nest == [] then x.scope else Some(x.nest[|x.nest| - 1])
  }

  // The scopes whose bodies lexically surround the task's current point of execution.
  function Context(st: State, t: TaskId): set<ScopeId>
    requires t in st.tasks
  {
    match Innermost(st.tasks[t])
    case None => {}
    case Some(s) => if s in st.scopes then st.scopes[s].anc else {}
  }

  function ScopeOpen(st: State, t: TaskId): Out
    requires t in st.tasks
  {
    var x := st.tasks[t];
    var s := st.next;
    var p := Innermost(x);
    var lvl := if p.Some? && p.value in st.scopes then st.scopes[p.value].level + 1 else 0;
    var sc := Scope(0, None, [], NoReason, t, p, lvl, {s} + Context(st, t));
    Next(Put(st, t, x.(nest := x.nest + [s], ret := Handle(s)))
           .(scopes := st.scopes[s := sc], next := s + 1))
  }

  // __scope_spawn and __task_fork.
  function Spawn(st: State, t: TaskId, s: ScopeId, awaitable: bool): Out
    requires t in st.tasks
  {
    if s !in st.scopes then Abort
    else
      var u := st.next;
      var sc := st.scopes[s];
      var st1 := st.(tasks := st.tasks[u := FreshTask(Some(s), awaitable)], next := u + 1);
      var st2 :- RqPush(st1, u);
      var forks := if awaitable then [u] + sc.forks else sc.forks;
      var x := st.tasks[t].(ret := if awaitable then Handle(u) else Unit);
      Next(Put(st2, t, x).(scopes := st2.scopes[s := sc.(live := sc.live + 1, forks := forks)]))
  }

  function Await(st: State, t: TaskId, u: TaskId): Out
    requires t in st.tasks
  {
    if u !in st.tasks || !st.tasks[u].awaitable then Abort
    else
      var y := st.tasks[u];
      if y.dropped then Abort
      else if y.done then Next(Put(st, t, st.tasks[t].(ret := Result(y.result))))
      else
        var st1 := Put(st, u, y.(awaiter := Some(t)));
        Next(Put(st1, t, st1.tasks[t].(frame := InAwait(u))).(cur := None))
  }

  function ResumeAwait(st: State, t: TaskId, u: TaskId): Out
    requires t in st.tasks
  {
    if u !in st.tasks then Fault(Dangling)
    else Next(Put(st, t, st.tasks[t].(frame := Running, ret := Result(st.tasks[u].result))))
  }

  function Join(st: State, t: TaskId, s: ScopeId): Out
    requires t in st.tasks
  {
    if s !in st.scopes then Abort
    else if st.scopes[s].live > 0 then
      Next(Put(st, t, st.tasks[t].(frame := InJoin(s)))
             .(scopes := st.scopes[s := st.scopes[s].(waiter := Some(t))], cur := None))
    else JoinTail(st, t, s)
  }

  // Past the park: free the forks, then the scope's channels, then the scope.
  function JoinTail(st: State, t: TaskId, s: ScopeId): Out {
    if s !in st.scopes || t !in st.tasks then Fault(Dangling)
    else
      var tasks :- FreeForks(st.tasks, st.scopes[s].forks);
      var chans :- FreeChans(st.chans, s);
      if t !in tasks then Fault(Dangling)
      else
        var x := tasks[t];
        var x' := x.(frame := Running, ret := Unit, nest := Without(x.nest, {s}));
        Next(st.(tasks := tasks[t := x'], chans := chans, scopes := st.scopes - {s}))
  }

  function FreeForks(tasks: map<TaskId, Task>, forks: seq<TaskId>): Outcome<map<TaskId, Task>> {
    if forks == [] then Next(tasks)
    else
      var f := forks[0];
      if f !in tasks then Fault(Dangling)
      else if !tasks[f].done && !tasks[f].dropped then Fault(FreedLive)
      else FreeForks(tasks - {f}, forks[1..])
  }

  function Parked(c: Chan): bool {
    c.sendq != [] || c.recvq != [] || c.selq != []
  }

  function FreeChans(chans: map<ChanId, Chan>, s: ScopeId): Outcome<map<ChanId, Chan>> {
    if exists ch :: ch in chans && chans[ch].scope == s && Parked(chans[ch]) then Abort
    else Next(map ch | ch in chans && chans[ch].scope != s :: chans[ch])
  }

  // The end of the trampoline: wake the awaiter, leave the scope, and let the pump destroy
  // the stack and, for a fire-and-forget task, the record.
  function Finish(st: State, t: TaskId, result: int): Out
    requires t in st.tasks
  {
    var x := st.tasks[t];
    if x.scope == None then Fault(Dangling)
    else
      var st1 := Put(st, t, x.(done := true, result := result, awaiter := None));
      var st2 :- match x.awaiter case None => Next(st1) case Some(a) => WakeAwaiter(st1, t, a);
      var st3 :- LeaveScope(st2, x.scope.value, true);
      Next(Retire(st3, t).(cur := None))
  }

  // The awaiter is enqueued once, whichever of the child and the deadline timer came first.
  function WakeAwaiter(st: State, t: TaskId, a: TaskId): Out {
    if a !in st.tasks then Fault(Dangling)
    else if st.tasks[a].onIo then
      var st1 :- RemoveTimerOnce(st, a, st.tasks[a].timer);
      var st2 :- IoRemove(st1, a);
      Wake(st2, a)
    else if st.tasks[a].deadlineChild == Some(t) then Next(st)
    else RqPush(st, a)
  }

  function LeaveScope(st: State, s: ScopeId, wakes: bool): Out {
    if s !in st.scopes then Fault(Dangling)
    else
      var sc := st.scopes[s];
      var sc' := sc.(live := sc.live - 1);
      if wakes && sc'.live == 0 && sc.waiter.Some? then
        RqPush(st.(scopes := st.scopes[s := sc'.(waiter := None)]), sc.waiter.value)
      else
        Next(st.(scopes := st.scopes[s := sc']))
  }

  function Retire(st: State, t: TaskId): State {
    if t in st.tasks && !st.tasks[t].awaitable then st.(tasks := st.tasks - {t}) else st
  }

  // ---- Force-drop, cancel, deadline ----

  // select_unlink_all from registration i on.
  function UnlinkFrom(chans: map<ChanId, Chan>, t: TaskId, regs: seq<ChanId>, i: nat)
    : Outcome<map<ChanId, Chan>>
    decreases |regs| - i
  {
    if i >= |regs| then Next(chans)
    else
      var ch := regs[i];
      if ch !in chans then Fault(Dangling)
      else if SelReg(t, i) !in chans[ch].selq then Fault(BadUnlink)
      else
        var c := chans[ch];
        UnlinkFrom(chans[ch := c.(selq := Without(c.selq, {SelReg(t, i)}))], t, regs, i + 1)
  }

  function UnlinkAll(st: State, t: TaskId): Out {
    if t !in st.tasks then Fault(Dangling)
    else
      var chans :- UnlinkFrom(st.chans, t, st.tasks[t].regs, 0);
      Next(Put(st, t, st.tasks[t].(regs := [])).(chans := chans))
  }

  function Deregister(st: State, t: TaskId): Out {
    if t !in st.tasks then Fault(Dangling)
    else
      var x := st.tasks[t];
      match x.park
      case OnSelect => UnlinkAll(st, t)
      case OnChan(ch, sender) =>
        if ch !in st.chans then Fault(Dangling)
        else
          var c := st.chans[ch];
          if sender then
            if t !in c.sendq then Fault(BadUnlink)
            else Next(PutChan(st, ch, c.(sendq := Without(c.sendq, {t}))))
          else
            if t !in c.recvq then Fault(BadUnlink)
            else Next(PutChan(st, ch, c.(recvq := Without(c.recvq, {t}))))
      case NotParked => IoRemove(st, t)
      case OnFd(fd) =>
        var st1 :- RemoveFd(st, t, fd);
        IoRemove(st1, t)
      case OnTimer =>
        var st1 :- RemoveTimerOnce(st, t, x.timer);
        IoRemove(st1, t)
      case OnFdTimer(fd) =>
        var st1 :- RemoveTimerOnce(st, t, x.timer);
        var st2 :- RemoveFd(st1, t, fd);
        IoRemove(st2, t)
  }

  function ForceDrop(st: State, t: TaskId, me: TaskId): Out {
    if t !in st.tasks then Fault(Dangling)
    else
      var x := st.tasks[t];
      if x.awaiter.Some? && x.awaiter.value != me then Abort
      else if x.deadlineChild.Some? then Abort
      else if x.done || x.dropped then Fault(DoubleDestroy)
      else if x.scope == None then Fault(Dangling)
      else
        var st1 :- Deregister(st, t);
        if t !in st1.tasks then Fault(Dangling)
        else
          var st2 := if x.awaitable then Put(st1, t, st1.tasks[t].(dropped := true))
                     else st1.(tasks := st1.tasks - {t});
          LeaveScope(st2, x.scope.value, false)
  }

  predicate Doomed(st: State, t: TaskId, s: ScopeId, me: TaskId)
    requires t in st.tasks
  {
    st.tasks[t].scope == Some(s) && t != me
  }

  // The walk of g_io_head, or of one channel's send or receive queue, with the next link
  // read before the drop.
  function CancelList(st: State, q: seq<TaskId>, s: ScopeId, me: TaskId): Out
    decreases |q|
  {
    if q == [] then Next(st)
    else if q[0] !in st.tasks then Fault(Dangling)
    else
      var st1 :- if Doomed(st, q[0], s, me) then ForceDrop(st, q[0], me) else Next(st);
      CancelList(st1, q[1..], s, me)
  }

  // The walk of one channel's select queue from position i, going back to the head after
  // each drop.
  function CancelSelect(st: State, ch: ChanId, i: nat, s: ScopeId, me: TaskId): Out
    decreases if ch in st.chans then |st.chans[ch].selq| else 0,
              if ch in st.chans then |st.chans[ch].selq| - i else 0
  {
    if ch !in st.chans then Fault(Dangling)
    else
      var q := st.chans[ch].selq;
      if i >= |q| then Next(st)
      else if q[i].task !in st.tasks then Fault(Dangling)
      else if Doomed(st, q[i].task, s, me) then
        var st1 :- ForceDrop(st, q[i].task, me);
        if ch !in st1.chans || |st1.chans[ch].selq| >= |q| then Fault(NoProgress)
        else CancelSelect(st1, ch, 0, s, me)
      else CancelSelect(st, ch, i + 1, s, me)
  }

  function CancelChan(st: State, ch: ChanId, s: ScopeId, me: TaskId): Out {
    if ch !in st.chans then Fault(Dangling)
    else
      var st1 :- CancelList(st, st.chans[ch].sendq, s, me);
      CancelTail(st1, ch, s, me)
  }

  function CancelTail(st: State, ch: ChanId, s: ScopeId, me: TaskId): Out {
    if ch !in st.chans then Fault(Dangling)
    else
      var st1 :- CancelList(st, st.chans[ch].recvq, s, me);
      CancelSelect(st1, ch, 0, s, me)
  }

  function CancelChans(st: State, chs: seq<ChanId>, s: ScopeId, me: TaskId): Out
    decreases |chs|
  {
    if chs == [] then Next(st)
    else
      var st1 :- CancelChan(st, chs[0], s, me);
      CancelChans(st1, chs[1..], s, me)
  }

  function CancelWalk(st: State, s: ScopeId, me: TaskId, all: seq<ChanId>): Out {
    var st1 :- CancelList(st, st.io, s, me);
    CancelChans(st1, all, s, me)
  }

  // all is g_all_chans: every live channel, once, in the order of the list.
  function Cancel(st: State, t: TaskId, s: ScopeId, all: seq<ChanId>): Out {
    if s !in st.scopes || t != st.scopes[s].owner || t !in st.tasks then Abort
    else
      var st1 := st.(scopes := st.scopes[s := st.scopes[s].(reason := Cancelled)]);
      var st2 :- CancelWalk(st1, s, t, all);
      if t !in st2.tasks then Fault(Dangling)
      else Next(Put(st2, t, st2.tasks[t].(ret := Unit)))
  }

  function AwaitDeadline(st: State, t: TaskId, s: ScopeId, u: TaskId, arm: Option<TimerId>): Out
    requires t in st.tasks
  {
    if s !in st.scopes || u !in st.tasks || !st.tasks[u].awaitable || arm == None then Abort
    else
      var tid := arm.value;
      var x := st.tasks[t].(park := OnTimer, frame := InDeadline(s, u), timer := tid,
                            timerDead := false, deadlineChild := Some(u), expired := false);
      var st1 :- IoPush(Put(st, t, x), t);
      if u !in st1.tasks then Fault(Dangling)
      else
        Next(Put(st1, u, st1.tasks[u].(awaiter := Some(t)))
               .(timers := st1.timers[tid := t], cur := None))
  }

  // The re-classification loop of __await_deadline up to its return or its next park.
  function Classify(st: State, t: TaskId, s: ScopeId, u: TaskId): Out {
    if t !in st.tasks || u !in st.tasks then Fault(Dangling)
    else
      var y := st.tasks[u];
      if y.done then
        var st1 :- if st.tasks[t].onIo then
            var st0 :- RemoveTimerOnce(st, t, st.tasks[t].timer);
            IoRemove(st0, t)
          else Next(st);
        if u !in st1.tasks then Fault(Dangling)
        else
          var st2 := Put(st1, u, st1.tasks[u].(awaiter := None));
          DeadlineReturn(st2, t, true)
      else if y.onIo || y.park.OnChan? || y.park.OnSelect? then
        if s !in st.scopes then Fault(Dangling)
        else
          var st1 := Put(st, u, y.(awaiter := None))
                       .(scopes := st.scopes[s := st.scopes[s].(reason := TimedOut)]);
          var st2 :- ForceDrop(st1, u, t);
          DeadlineReturn(st2, t, false)
      else if y.inRq then
        var st1 := Put(st, u, y.(awaiter := None));
        if t !in st1.tasks then Fault(Dangling)
        else RqPush(Put(st1, t, st1.tasks[t].(frame := InDeadlineYield(s, u))).(cur := None), t)
      else Abort
  }

  function DeadlineReturn(st: State, t: TaskId, ok: bool): Out {
    if t !in st.tasks then Fault(Dangling)
    else Next(Put(st, t, st.tasks[t].(frame := Running, ret := Flag(ok))))
  }

  // ---- Channels ----

  function ChanNew(st: State, t: TaskId, s: ScopeId, cap: int): Out
    requires t in st.tasks
  {
    if s !in st.scopes || cap < 0 then Abort
    else
      var ch := st.next;
      Next(Put(st, t, st.tasks[t].(ret := Handle(ch)))
             .(chans := st.chans[ch := Chan(s, cap, [], [], [], [], false, [], [])],
               next := ch + 1))
  }

  function HandToReceiver(st: State, ch: ChanId, m: Msg): Out
    requires ch in st.chans && st.chans[ch].recvq != []
  {
    var c := st.chans[ch];
    var r := c.recvq[0];
    if r !in st.tasks then Fault(Dangling)
    else
      var c' := c.(recvq := c.recvq[1..], log := c.log + [m.value],
                   delivered := c.delivered + [m]);
      Wake(Put(PutChan(st, ch, c'), r, st.tasks[r].(pending := Some(m))), r)
  }

  // select_fire, after the caller has set the outcome on the task.
  function SelectFire(st: State, t: TaskId, index: nat): Out {
    if t !in st.tasks then Fault(Dangling)
    else
      var st1 :- UnlinkAll(Put(st, t, st.tasks[t].(fired := index)), t);
      Wake(st1, t)
  }

  function HandToSelect(st: State, ch: ChanId, m: Msg): Out
    requires ch in st.chans && st.chans[ch].selq != []
  {
    var c := st.chans[ch];
    var w := c.selq[0];
    if w.task !in st.tasks then Fault(Dangling)
    else
      var c' := c.(log := c.log + [m.value], delivered := c.delivered + [m]);
      var x := st.tasks[w.task].(pending := Some(m), closedWake := false);
      SelectFire(Put(PutChan(st, ch, c'), w.task, x), w.task, w.index)
  }

  function Send(st: State, t: TaskId, ch: ChanId, v: int): Out
    requires t in st.tasks
  {
    if ch !in st.chans || st.chans[ch].closed then Abort
    else
      var c := st.chans[ch];
      var m := Msg(|c.log|, v);
      if c.recvq != [] then
        var st1 :- HandToReceiver(st, ch, m);
        ReturnTo(st1, t, Unit)
      else if c.selq != [] then
        var st1 :- HandToSelect(st, ch, m);
        ReturnTo(st1, t, Unit)
      else if |c.buf| < c.cap then
        ReturnTo(PutChan(st, ch, c.(buf := c.buf + [m], log := c.log + [v])), t, Unit)
      else
        var x := st.tasks[t].(pending := Some(m), park := OnChan(ch, true), frame := InSend(ch));
        Next(Put(PutChan(st, ch, c.(sendq := c.sendq + [t], log := c.log + [v])), t, x)
               .(cur := None))
  }

  function ReturnTo(st: State, t: TaskId, r: Ret): Out {
    if t !in st.tasks then Fault(Dangling)
    else Next(Put(st, t, st.tasks[t].(frame := Running, ret := r)))
  }

  datatype Taken = NotReady | Item(msg: Msg) | End

  // Pops the first parked sender and makes it runnable; the caller keeps its message.
  function PopSender(st: State, ch: ChanId): Outcome<(State, Msg)>
    requires ch in st.chans && st.chans[ch].sendq != []
  {
    var c := st.chans[ch];
    var p := c.sendq[0];
    if p !in st.tasks then Fault(Dangling)
    else if st.tasks[p].pending == None then Fault(EmptyDelivery)
    else
      var m := st.tasks[p].pending.value;
      var st1 := PutChan(st, ch, c.(sendq := c.sendq[1..]));
      var st2 :- Wake(Put(st1, p, st.tasks[p].(pending := None)), p);
      Next((st2, m))
  }

  function PollTake(st: State, ch: ChanId): Outcome<(State, Taken)>
    requires ch in st.chans
  {
    var c := st.chans[ch];
    if c.buf != [] then
      var m := c.buf[0];
      var c1 := c.(buf := c.buf[1..], delivered := c.delivered + [m]);
      var st1 := PutChan(st, ch, c1);
      if c.sendq == [] then Next((st1, Item(m)))
      else
        var (st2, pm) :- PopSender(st1, ch);
        if ch !in st2.chans then Fault(Dangling)
        else
          var c2 := st2.chans[ch];
          Next((PutChan(st2, ch, c2.(buf := c2.buf + [pm])), Item(m)))
    else if c.sendq != [] then
      var (st2, pm) :- PopSender(st, ch);
      if ch !in st2.chans then Fault(Dangling)
      else
        var c2 := st2.chans[ch];
        Next((PutChan(st2, ch, c2.(delivered := c2.delivered + [pm])), Item(pm)))
    else if c.closed then Next((st, End))
    else Next((st, NotReady))
  }

  function AsRecv(k: Taken): Recv
    requires !k.NotReady?
  {
    match k
    case Item(m) => Got(m.value)
    case End => Closed
  }

  function RecvOp(st: State, t: TaskId, ch: ChanId): Out
    requires t in st.tasks
  {
    if ch !in st.chans then Abort
    else
      var (st1, k) :- PollTake(st, ch);
      if !k.NotReady? then ReturnTo(st1, t, Received(AsRecv(k)))
      else
        var c := st.chans[ch];
        var x := st.tasks[t].(park := OnChan(ch, false), frame := InRecv(ch));
        Next(Put(PutChan(st, ch, c.(recvq := c.recvq + [t])), t, x).(cur := None))
  }

  // The value or the close that woke a receiver.
  function TakeDelivery(x: Task): Outcome<(Task, Recv)> {
    if x.closedWake then Next((x.(closedWake := false, frame := Running), Closed))
    else if x.pending == None then Fault(EmptyDelivery)
    else Next((x.(pending := None, frame := Running), Got(x.pending.value.value)))
  }

  function ResumeSend(st: State, t: TaskId): Out
    requires t in st.tasks
  {
    if st.tasks[t].closedWake then Abort else ReturnTo(st, t, Unit)
  }

  function ResumeRecv(st: State, t: TaskId): Out
    requires t in st.tasks
  {
    var (x, r) :- TakeDelivery(st.tasks[t]);
    Next(Put(st, t, x.(ret := Received(r))))
  }

  function ResumeSelect(st: State, t: TaskId): Out
    requires t in st.tasks
  {
    var (x, r) :- TakeDelivery(st.tasks[t]);
    Next(Put(st, t, x.(ret := Selected(x.fired, r))))
  }

  // Wakes the first parked receiver, sender or select of a closing channel.
  function CloseReceiver(st: State, ch: ChanId): Out
    requires ch in st.chans && st.chans[ch].recvq != []
  {
    var c := st.chans[ch];
    var r := c.recvq[0];
    if r !in st.tasks then Fault(Dangling)
    else
      Wake(Put(PutChan(st, ch, c.(recvq := c.recvq[1..])), r, st.tasks[r].(closedWake := true)), r)
  }

  function CloseSender(st: State, ch: ChanId): Out
    requires ch in st.chans && st.chans[ch].sendq != []
  {
    var c := st.chans[ch];
    var p := c.sendq[0];
    if p !in st.tasks then Fault(Dangling)
    else
      Wake(Put(PutChan(st, ch, c.(sendq := c.sendq[1..])), p, st.tasks[p].(closedWake := true)), p)
  }

  function CloseSelect(st: State, ch: ChanId): Out
    requires ch in st.chans && st.chans[ch].selq != []
  {
    var w := st.chans[ch].selq[0];
    if w.task !in st.tasks then Fault(Dangling)
    else SelectFire(Put(st, w.task, st.tasks[w.task].(closedWake := true)), w.task, w.index)
  }

  function QueueLen(st: State, ch: ChanId): nat {
    if ch in st.chans
    then |st.chans[ch].recvq| + |st.chans[ch].sendq| + |st.chans[ch].selq|
    else 0
  }

  function Drain(st: State, ch: ChanId): Out
    decreases QueueLen(st, ch)
  {
    if ch !in st.chans then Fault(Dangling)
    else
      var c := st.chans[ch];
      if !Parked(c) then Next(st)
      else
        var st1 :- if c.recvq != [] then CloseReceiver(st, ch)
                   else if c.sendq != [] then CloseSender(st, ch)
                   else CloseSelect(st, ch);
        if QueueLen(st1, ch) >= QueueLen(st, ch) then Fault(NoProgress)
        else Drain(st1, ch)
  }

  function Close(st: State, t: TaskId, ch: ChanId): Out
    requires t in st.tasks
  {
    if ch !in st.chans || st.chans[ch].closed then Abort
    else
      var st1 :- Drain(PutChan(st, ch, st.chans[ch].(closed := true)), ch);
      ReturnTo(st1, t, Unit)
  }

  // The synchronous scan of __chan_select from position i.
  function Scan(st: State, chs: seq<ChanId>, i: nat): Outcome<(State, nat, Taken)>
    decreases |chs| - i
  {
    if i >= |chs| then Next((st, 0, NotReady))
    else if chs[i] !in st.chans then Fault(Dangling)
    else
      var (st1, k) :- PollTake(st, chs[i]);
      if !k.NotReady? then Next((st1, i, k))
      else Scan(st1, chs, i + 1)
  }

  function Register(chans: map<ChanId, Chan>, t: TaskId, chs: seq<ChanId>, i: nat)
    : Outcome<map<ChanId, Chan>>
    decreases |chs| - i
  {
    if i >= |chs| then Next(chans)
    else if chs[i] !in chans then Fault(Dangling)
    else
      var c := chans[chs[i]];
      Register(chans[chs[i] := c.(selq := c.selq + [SelReg(t, i)])], t, chs, i + 1)
  }

  function Select(st: State, t: TaskId, chs: seq<ChanId>): Out
    requires t in st.tasks
  {
    if chs == [] || exists i :: 0 <= i < |chs| && chs[i] !in st.chans then Abort
    else
      var (st1, i, k) :- Scan(st, chs, 0);
      if !k.NotReady? then ReturnTo(st1, t, Selected(i, AsRecv(k)))
      else
        var chans :- Register(st1.chans, t, chs, 0);
        if t !in st1.tasks then Fault(Dangling)
        else
          var x := st1.tasks[t].(regs := chs, park := OnSelect, frame := InSelect);
          Next(Put(st1, t, x).(chans := chans, cur := None))
  }

  // ---- Continuing after a park ----

  function Resume(st: State, t: TaskId): Out
    requires t in st.tasks
  {
    match st.tasks[t].frame
    case Running => Next(st)
    case InFd(_) => ReturnTo(st, t, Unit)
    case InFdTimed(fd, tid) => ResumeFdTimeout(st, t, fd, tid)
    case InSleep => ReturnTo(st, t, Unit)
    case InDeadline(s, u) =>
      Classify(Put(st, t, st.tasks[t].(frame := Running, deadlineChild := None)), t, s, u)
    case InDeadlineYield(s, u) =>
      Classify(Put(st, t, st.tasks[t].(frame := Running)), t, s, u)
    case InAwait(u) => ResumeAwait(st, t, u)
    case InJoin(s) => JoinTail(st, t, s)
    case InSend(_) => ResumeSend(st, t)
    case InRecv(_) => ResumeRecv(st, t)
    case InSelect => ResumeSelect(st, t)
  }
}
