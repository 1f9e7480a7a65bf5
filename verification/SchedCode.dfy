// The scheduler's code over its own globals: the queues, lists and records are fields that each
// function reassigns, loops walk them as the C loops do, and every method is proved to do what
// its step in SchedSteps says. A method stands for one function, or for the part of it before
// or after a park.
module SchedCode {
  import opened Common
  import opened SchedState
  import S = SchedSteps
  import C = SchedChans

  // What is left when the channels of s are gone.
  lemma Freed(chans: map<ChanId, Chan>, left: map<ChanId, Chan>, s: ScopeId)
    requires forall ch :: ch in left <==> ch in chans && chans[ch].scope != s
    requires forall ch :: ch in left ==> left[ch] == chans[ch]
    requires forall ch :: ch in chans && chans[ch].scope == s ==> !S.Parked(chans[ch])
    ensures S.FreeChans(chans, s) == Next(left)
  {
    assert S.FreeChans(chans, s).Next?;
    assert S.FreeChans(chans, s).value == left;
  }

  class Scheduler {
    var tasks: map<TaskId, Task>
    var scopes: map<ScopeId, Scope>
    var chans: map<ChanId, Chan>
    var all: seq<ChanId>             // g_all_chans
    var rq: seq<TaskId>              // g_rq_head .. g_rq_tail
    var io: seq<TaskId>              // g_io_head
    var fds: map<int, TaskId>
    var timers: map<TimerId, TaskId>
    var cur: Option<TaskId>          // g_current_task
    var next: nat

    ghost function St(): State
      reads this
    {
      State(tasks, scopes, chans, rq, io, fds, timers, cur, next)
    }

    // The code went where the step goes, or called sprout_fail where the step aborts.
    ghost predicate Did(o: S.Out, ok: bool)
      reads this
    {
      o == if ok then Next(St()) else Abort
    }

    // Every live channel is listed once.
    ghost predicate Listed()
      reads this
    {
      NoDup(all) && forall ch :: ch in all <==> ch in chans
    }

    constructor ()
      ensures St() == Init && Listed()
    {
      tasks, scopes, chans := map[0 := FreshTask(None, false)], map[], map[];
      all, rq, io, fds, timers, cur, next := [], [], [], map[], map[], Some(0), 1;
    }

    // ---- Queues ----

    method RqPush(t: TaskId)
      requires !S.RqPush(St(), t).Fault?
      modifies `rq, `tasks
      ensures S.RqPush(old(St()), t) == Next(St())
    {
      rq := rq + [t];
      tasks := tasks[t := tasks[t].(inRq := true)];
    }

    method IoListPush(t: TaskId)
      requires !S.IoPush(St(), t).Fault?
      modifies `io, `tasks
      ensures S.IoPush(old(St()), t) == Next(St())
    {
      io := [t] + io;
      tasks := tasks[t := tasks[t].(onIo := true)];
    }

    method IoListRemove(t: TaskId)
      requires !S.IoRemove(St(), t).Fault?
      modifies `io, `tasks
      ensures S.IoRemove(old(St()), t) == Next(St())
    {
      io := Without(io, {t});
      tasks := tasks[t := tasks[t].(onIo := false)];
    }

    method ChanWake(t: TaskId)
      requires !S.Wake(St(), t).Fault?
      modifies `rq, `tasks
      ensures S.Wake(old(St()), t) == Next(St())
    {
      tasks := tasks[t := tasks[t].(park := NotParked)];
      RqPush(t);
    }

    // ---- The poller's two removals ----

    method PollRemoveTimer(t: TaskId, tid: TimerId)
      requires !S.RemoveTimerOnce(St(), t, tid).Fault?
      modifies `timers, `tasks
      ensures S.RemoveTimerOnce(old(St()), t, tid) == Next(St())
    {
      if !tasks[t].timerDead {
        timers := timers - {tid};
        tasks := tasks[t := tasks[t].(timerDead := true)];
      }
    }

    method PollRemove(t: TaskId, fd: int)
      requires !S.RemoveFd(St(), t, fd).Fault?
      modifies `fds
      ensures S.RemoveFd(old(St()), t, fd) == Next(St())
    {
      fds := fds - {fd};
    }

    // ---- The pump ----

    method PumpNext() returns (ok: bool)
      requires !S.Dispatch(St()).Fault?
      modifies `rq, `tasks, `cur
      ensures Did(S.Dispatch(old(St())), ok)
    {
      if rq == [] { return false; }
      var t := rq[0];
      rq := rq[1..];
      tasks := tasks[t := tasks[t].(inRq := false)];
      cur := Some(t);
      return true;
    }

    // The loop over one batch of the poller.
    method PumpBatch(batch: seq<S.Event>)
      requires !S.Harvest(St(), batch).Fault?
      modifies `rq, `tasks, `io, `fds, `timers
      ensures S.Harvest(old(St()), batch) == Next(St())
    {
      var i := 0;
      assert batch[0..] == batch;
      while i < |batch|
        invariant 0 <= i <= |batch|
        invariant S.Harvest(old(St()), batch) == S.Harvest(St(), batch[i..])
      {
        assert batch[i..][1..] == batch[i + 1..];
        PumpEvent(batch[i]);
        i := i + 1;
      }
    }

    method PumpEvent(e: S.Event)
      requires !S.HarvestOne(St(), e).Fault?
      modifies `rq, `tasks, `io, `fds, `timers
      ensures S.HarvestOne(old(St()), e) == Next(St())
    {
      var w, isTimer := 0, e.TimerFired?;
      match e {
        case FdReady(fd) =>
          w := fds[fd];
          fds := fds - {fd};
        case TimerFired(tid) =>
          w := timers[tid];
          PollRemoveTimer(w, tasks[w].timer);
      }
      if !tasks[w].onIo { return; }
      tasks := tasks[w := tasks[w].(wokeByTimer := isTimer, expired := isTimer)];
      IoListRemove(w);
      ChanWake(w);
    }

    // ---- Parking on the poller ----

    method ParkOnFd(t: TaskId, fd: int)
      requires t in tasks && !S.ParkOnFd(St(), t, fd).Fault?
      modifies `tasks, `io, `fds, `cur
      ensures S.ParkOnFd(old(St()), t, fd) == Next(St())
    {
      tasks := tasks[t := tasks[t].(park := OnFd(fd), frame := InFd(fd))];
      IoListPush(t);
      fds := fds[fd := t];
      cur := None;
    }

    method ParkOnFdTimeout(t: TaskId, fd: int, arm: Option<TimerId>)
      requires t in tasks && !S.ParkOnFdTimeout(St(), t, fd, arm).Fault?
      modifies `tasks, `io, `fds, `timers, `cur
      ensures S.ParkOnFdTimeout(old(St()), t, fd, arm) == Next(St())
    {
      if arm == None {
        tasks := tasks[t := tasks[t].(ret := Flag(false))];
        return;
      }
      var tid := arm.value;
      timers, fds := timers[tid := t], fds[fd := t];
      tasks := tasks[t := tasks[t].(park := OnFdTimer(fd), frame := InFdTimed(fd, tid), timer := tid,
                                    timerDead := false, wokeByTimer := false)];
      IoListPush(t);
      cur := None;
    }

    method AfterFdTimeout(t: TaskId, fd: int, tid: TimerId)
      requires t in tasks && !S.ResumeFdTimeout(St(), t, fd, tid).Fault?
      modifies `tasks, `fds, `timers
      ensures S.ResumeFdTimeout(old(St()), t, fd, tid) == Next(St())
    {
      PollRemove(t, fd);
      PollRemoveTimer(t, tid);
      tasks := tasks[t := tasks[t].(frame := Running, ret := Flag(!tasks[t].wokeByTimer))];
    }

    method ParkOnTimer(t: TaskId, arm: Option<TimerId>) returns (ok: bool)
      requires t in tasks && !S.Sleep(St(), t, arm).Fault?
      modifies `tasks, `io, `timers, `cur
      ensures Did(S.Sleep(old(St()), t, arm), ok)
    {
      if arm == None { return false; }
      var tid := arm.value;
      timers := timers[tid := t];
      tasks := tasks[t := tasks[t].(park := OnTimer, frame := InSleep, timer := tid,
                                    timerDead := false)];
      IoListPush(t);
      cur := None;
      return true;
    }

    method TaskYield(t: TaskId)
      requires !S.Yield(St(), t).Fault?
      modifies `tasks, `rq, `cur
      ensures S.Yield(old(St()), t) == Next(St())
    {
      RqPush(t);
      cur := None;
    }

    // ---- Scopes and tasks ----

    method ScopeOpen(t: TaskId)
      requires t in tasks
      modifies `tasks, `scopes, `next
      ensures S.ScopeOpen(old(St()), t) == Next(St())
    {
      var s, p := next, S.Innermost(tasks[t]);
      var level := if p.Some? && p.value in scopes then scopes[p.value].level + 1 else 0;
      var anc := if p.Some? && p.value in scopes then scopes[p.value].anc else {};
      scopes := scopes[s := Scope(0, None, [], NoReason, t, p, level, {s} + anc)];
      tasks := tasks[t := tasks[t].(nest := tasks[t].nest + [s], ret := Handle(s))];
      next := s + 1;
    }

    // task_create, with the part of __task_fork that links an awaitable task into its scope.
    method TaskCreate(t: TaskId, s: ScopeId, awaitable: bool) returns (ok: bool)
      requires t in tasks && next !in tasks && !S.Spawn(St(), t, s, awaitable).Fault?
      modifies `tasks, `scopes, `rq, `next
      ensures Did(S.Spawn(old(St()), t, s, awaitable), ok)
    {
      if s !in scopes { return false; }
      var u := next;
      next := u + 1;
      tasks := tasks[u := FreshTask(Some(s), awaitable)];
      RqPush(u);
      scopes := scopes[s := scopes[s].(live := scopes[s].live + 1)];
      if awaitable {
        scopes := scopes[s := scopes[s].(forks := [u] + scopes[s].forks)];
      }
      assert scopes == old(scopes)[s := scopes[s]];
      tasks := tasks[t := tasks[t].(ret := if awaitable then Handle(u) else Unit)];
      return true;
    }

    method TaskAwait(t: TaskId, u: TaskId) returns (ok: bool)
      requires t in tasks && !S.Await(St(), t, u).Fault?
      modifies `tasks, `cur
      ensures Did(S.Await(old(St()), t, u), ok)
    {
      if u !in tasks || !tasks[u].awaitable || tasks[u].dropped { return false; }
      if !tasks[u].done {
        tasks := tasks[u := tasks[u].(awaiter := Some(t))];
        tasks := tasks[t := tasks[t].(frame := InAwait(u))];
        cur := None;
      } else {
        tasks := tasks[t := tasks[t].(ret := Result(tasks[u].result))];
      }
      return true;
    }

    method AfterAwait(t: TaskId, u: TaskId)
      requires t in tasks && !S.ResumeAwait(St(), t, u).Fault?
      modifies `tasks
      ensures S.ResumeAwait(old(St()), t, u) == Next(St())
    {
      tasks := tasks[t := tasks[t].(frame := Running, ret := Result(tasks[u].result))];
    }

    // The end of task_trampoline, and what the pump then does with the task.
    method TaskFinish(t: TaskId, result: int)
      requires t in tasks && !S.Finish(St(), t, result).Fault?
      modifies `tasks, `scopes, `rq, `io, `timers, `cur
      ensures S.Finish(old(St()), t, result) == Next(St())
    {
      hide S.WakeAwaiter, S.LeaveScope;
      var s, aw := tasks[t].scope.value, tasks[t].awaiter;
      tasks := tasks[t := tasks[t].(done := true, result := result, awaiter := None)];
      if aw.Some? {
        WakeAwaiter(t, aw.value);
      }
      LeaveScope(s);
      if t in tasks && !tasks[t].awaitable {
        tasks := tasks - {t};
      }
      cur := None;
    }

    // The last child wakes the joiner.
    method LeaveScope(s: ScopeId)
      requires !S.LeaveScope(St(), s, true).Fault?
      modifies `tasks, `scopes, `rq
      ensures S.LeaveScope(old(St()), s, true) == Next(St())
    {
      scopes := scopes[s := scopes[s].(live := scopes[s].live - 1)];
      if scopes[s].live == 0 && scopes[s].waiter.Some? {
        var w := scopes[s].waiter.value;
        scopes := scopes[s := scopes[s].(waiter := None)];
        assert scopes == old(scopes)[s := scopes[s]];
        RqPush(w);
      }
    }

    method WakeAwaiter(t: TaskId, aw: TaskId)
      requires !S.WakeAwaiter(St(), t, aw).Fault?
      modifies `tasks, `rq, `io, `timers
      ensures S.WakeAwaiter(old(St()), t, aw) == Next(St())
    {
      if tasks[aw].onIo {
        PollRemoveTimer(aw, tasks[aw].timer);
        IoListRemove(aw);
        ChanWake(aw);
      } else if tasks[aw].deadlineChild == Some(t) {
      } else {
        RqPush(aw);
      }
    }

    method ScopeJoin(t: TaskId, s: ScopeId) returns (ok: bool)
      requires t in tasks && !S.Join(St(), t, s).Fault? && Listed()
      modifies `tasks, `scopes, `chans, `all, `cur
      ensures Did(S.Join(old(St()), t, s), ok)
      ensures ok ==> Listed()
    {
      if s !in scopes { return false; }
      if scopes[s].live > 0 {
        scopes := scopes[s := scopes[s].(waiter := Some(t))];
        tasks := tasks[t := tasks[t].(frame := InJoin(s))];
        cur := None;
        return true;
      }
      ok := AfterJoin(t, s);
    }

    method AfterJoin(t: TaskId, s: ScopeId) returns (ok: bool)
      requires !S.JoinTail(St(), t, s).Fault? && Listed()
      modifies `tasks, `scopes, `chans, `all
      ensures Did(S.JoinTail(old(St()), t, s), ok)
      ensures ok ==> Listed()
    {
      var f := scopes[s].forks;
      while f != []
        invariant s in scopes && S.FreeForks(old(tasks), scopes[s].forks) == S.FreeForks(tasks, f)
        invariant scopes == old(scopes) && chans == old(chans) && all == old(all)
      {
        tasks := tasks - {f[0]};
        f := f[1..];
      }
      ok := FreeChans(s);
      if !ok { return; }
      tasks := tasks[t := tasks[t].(frame := Running, ret := Unit, nest := Without(tasks[t].nest, {s}))];
      scopes := scopes - {s};
    }

    // The walk over all channels, with the next link saved before the unlinking.
    method FreeChans(s: ScopeId) returns (ok: bool)
      requires Listed()
      modifies `chans, `all
      ensures S.FreeChans(old(chans), s) == if ok then Next(chans) else Abort
      ensures ok ==> Listed()
    {
      var walk := all;
      while walk != []
        invariant NoDup(walk) && (forall ch :: ch in walk ==> ch in all && ch in old(chans))
        invariant Listed()
        invariant forall ch :: ch in chans <==>
                    ch in old(chans) && (ch in walk || old(chans)[ch].scope != s)
        invariant forall ch :: ch in chans ==> chans[ch] == old(chans)[ch]
        invariant forall ch :: ch in old(chans) && ch !in chans ==> !S.Parked(old(chans)[ch])
      {
        var ch := walk[0];
        NoDupTail(walk);
        walk := walk[1..];
        if chans[ch].scope == s {
          if chans[ch].sendq != [] || chans[ch].recvq != [] || chans[ch].selq != [] {
            return false;
          }
          WithoutKeepsNoDup(all, {ch});
          all := Without(all, {ch});
          chans := chans - {ch};
        }
      }
      Freed(old(chans), chans, s);
      return true;
    }

    // ---- Force-drop ----

    method SelectUnlinkAll(t: TaskId)
      requires !S.UnlinkAll(St(), t).Fault?
      modifies `tasks, `chans
      ensures S.UnlinkAll(old(St()), t) == Next(St())
      ensures chans.Keys == old(chans.Keys)
      ensures forall ch :: ch in chans ==> chans[ch] == old(chans)[ch].(selq := chans[ch].selq)
    {
      var w, regs := 0, tasks[t].regs;
      while w < |regs|
        invariant 0 <= w <= |regs| && tasks == old(tasks)
        invariant S.UnlinkFrom(old(chans), t, regs, 0) == S.UnlinkFrom(chans, t, regs, w)
      {
        var ch := regs[w];
        chans := chans[ch := chans[ch].(selq := Without(chans[ch].selq, {SelReg(t, w)}))];
        w := w + 1;
      }
      C.UnlinkKeeps(old(chans), t, regs, 0);
      tasks := tasks[t := tasks[t].(regs := [])];
    }

    method ForceDrop(t: TaskId, me: TaskId) returns (ok: bool)
      requires !S.ForceDrop(St(), t, me).Fault?
      modifies `tasks, `scopes, `chans, `io, `fds, `timers
      ensures Did(S.ForceDrop(old(St()), t, me), ok)
      ensures chans.Keys == old(chans.Keys)
    {
      hide S.Deregister;
      if tasks[t].awaiter.Some? && tasks[t].awaiter.value != me { return false; }
      if tasks[t].deadlineChild.Some? { return false; }
      var s := tasks[t].scope.value;
      Deregister(t);
      if tasks[t].awaitable {
        tasks := tasks[t := tasks[t].(dropped := true)];
      } else {
        tasks := tasks - {t};
      }
      scopes := scopes[s := scopes[s].(live := scopes[s].live - 1)];
      return true;
    }

    // Takes a suspended task off whatever it is parked on.
    method Deregister(t: TaskId)
      requires !S.Deregister(St(), t).Fault?
      modifies `tasks, `chans, `io, `fds, `timers
      ensures S.Deregister(old(St()), t) == Next(St())
      ensures t in tasks && tasks[t].awaitable == old(tasks[t].awaitable)
      ensures chans.Keys == old(chans.Keys)
    {
      if tasks[t].park.OnSelect? {
        SelectUnlinkAll(t);
      } else if tasks[t].park.OnChan? {
        var ch := tasks[t].park.chan;
        if tasks[t].park.sender {
          chans := chans[ch := chans[ch].(sendq := Without(chans[ch].sendq, {t}))];
        } else {
          chans := chans[ch := chans[ch].(recvq := Without(chans[ch].recvq, {t}))];
        }
      } else {
        if tasks[t].park.OnTimer? || tasks[t].park.OnFdTimer? {
          PollRemoveTimer(t, tasks[t].timer);
        }
        if tasks[t].park.OnFd? || tasks[t].park.OnFdTimer? {
          PollRemove(t, tasks[t].park.fd);
        }
        IoListRemove(t);
      }
    }

    // ---- Cancel ----

    method ScopeCancel(t: TaskId, s: ScopeId) returns (ok: bool)
      requires t in tasks && !S.Cancel(St(), t, s, all).Fault?
      modifies `tasks, `scopes, `chans, `io, `fds, `timers
      ensures Did(S.Cancel(old(St()), t, s, all), ok)
      ensures chans.Keys == old(chans.Keys)
    {
      if s !in scopes { return false; }
      if t != scopes[s].owner { return false; }
      scopes := scopes[s := scopes[s].(reason := Cancelled)];
      label marked:
      ok := CancelList(io, s, t);
      if !ok { return; }
      var walk := all;
      while walk != []
        invariant S.CancelWalk(old@marked(St()), s, t, all) == S.CancelChans(St(), walk, s, t)
        invariant chans.Keys == old(chans.Keys)
      {
        ok := CancelChan(walk[0], s, t);
        if !ok { return; }
        walk := walk[1..];
      }
      tasks := tasks[t := tasks[t].(ret := Unit)];
      return true;
    }

    method CancelChan(ch: ChanId, s: ScopeId, me: TaskId) returns (ok: bool)
      requires !S.CancelChan(St(), ch, s, me).Fault?
      modifies `tasks, `scopes, `chans, `io, `fds, `timers
      ensures Did(S.CancelChan(old(St()), ch, s, me), ok)
      ensures chans.Keys == old(chans.Keys)
    {
      ok := CancelList(chans[ch].sendq, s, me);
      if !ok { return; }
      ok := CancelList(chans[ch].recvq, s, me);
      if !ok { return; }
      ok := CancelSelects(ch, s, me);
    }

    // A walk of one list from its head, the link saved before the drop.
    method CancelList(q: seq<TaskId>, s: ScopeId, me: TaskId) returns (ok: bool)
      requires !S.CancelList(St(), q, s, me).Fault?
      modifies `tasks, `scopes, `chans, `io, `fds, `timers
      ensures Did(S.CancelList(old(St()), q, s, me), ok)
      ensures chans.Keys == old(chans.Keys)
    {
      var walk := q;
      while walk != []
        invariant S.CancelList(old(St()), q, s, me) == S.CancelList(St(), walk, s, me)
        invariant chans.Keys == old(chans.Keys)
      {
        var t, rest := walk[0], walk[1..];
        if tasks[t].scope == Some(s) && t != me {
          ok := ForceDrop(t, me);
          if !ok { return; }
        }
        walk := rest;
      }
      return true;
    }

    // A walk of a select queue that goes back to the head after each drop.
    method CancelSelects(ch: ChanId, s: ScopeId, me: TaskId) returns (ok: bool)
      requires ch in chans && !S.CancelSelect(St(), ch, 0, s, me).Fault?
      modifies `tasks, `scopes, `chans, `io, `fds, `timers
      ensures Did(S.CancelSelect(old(St()), ch, 0, s, me), ok)
      ensures chans.Keys == old(chans.Keys)
    {
      var w := 0;
      while w < |chans[ch].selq|
        invariant ch in chans && 0 <= w <= |chans[ch].selq| && chans.Keys == old(chans.Keys)
        invariant S.CancelSelect(old(St()), ch, 0, s, me) == S.CancelSelect(St(), ch, w, s, me)
        decreases |chans[ch].selq|, |chans[ch].selq| - w
      {
        var t := chans[ch].selq[w].task;
        if tasks[t].scope == Some(s) && t != me {
          ok := ForceDrop(t, me);
          if !ok { return; }
          w := 0;
        } else {
          w := w + 1;
        }
      }
      return true;
    }

    // ---- with_timeout ----

    method AwaitDeadline(t: TaskId, s: ScopeId, u: TaskId, arm: Option<TimerId>) returns (ok: bool)
      requires t in tasks && !S.AwaitDeadline(St(), t, s, u, arm).Fault?
      modifies `tasks, `io, `timers, `cur
      ensures Did(S.AwaitDeadline(old(St()), t, s, u, arm), ok)
    {
      if s !in scopes || u !in tasks || !tasks[u].awaitable { return false; }
      if arm == None { return false; }
      var tid := arm.value;
      timers := timers[tid := t];
      tasks := tasks[t := tasks[t].(park := OnTimer, frame := InDeadline(s, u), timer := tid,
                                    timerDead := false, deadlineChild := Some(u), expired := false)];
      IoListPush(t);
      tasks := tasks[u := tasks[u].(awaiter := Some(t))];
      cur := None;
      return true;
    }

    // One turn of the classification loop: it returns, or yields to the child and comes back.
    method AfterDeadline(t: TaskId, s: ScopeId, u: TaskId) returns (ok: bool)
      requires !S.Classify(St(), t, s, u).Fault?
      modifies `tasks, `scopes, `chans, `rq, `io, `fds, `timers, `cur
      ensures Did(S.Classify(old(St()), t, s, u), ok)
      ensures chans.Keys == old(chans.Keys)
    {
      if tasks[u].done {
        if tasks[t].onIo {
          PollRemoveTimer(t, tasks[t].timer);
          IoListRemove(t);
        }
        tasks := tasks[u := tasks[u].(awaiter := None)];
        tasks := tasks[t := tasks[t].(frame := Running, ret := Flag(true))];
        return true;
      }
      if tasks[u].onIo || tasks[u].park.OnChan? || tasks[u].park.OnSelect? {
        scopes := scopes[s := scopes[s].(reason := TimedOut)];
        tasks := tasks[u := tasks[u].(awaiter := None)];
        ok := ForceDrop(u, t);
        if !ok { return; }
        tasks := tasks[t := tasks[t].(frame := Running, ret := Flag(false))];
        return true;
      }
      if tasks[u].inRq {
        tasks := tasks[u := tasks[u].(awaiter := None)];
        tasks := tasks[t := tasks[t].(frame := InDeadlineYield(s, u))];
        RqPush(t);
        cur := None;
        return true;
      }
      return false;
    }

    // ---- Channels ----

    method ChanNew(t: TaskId, s: ScopeId, capacity: int) returns (ok: bool)
      requires t in tasks && next !in chans && Listed()
      modifies `tasks, `chans, `all, `next
      ensures Did(S.ChanNew(old(St()), t, s, capacity), ok)
      ensures Listed()
    {
      if s !in scopes { return false; }
      if capacity < 0 { return false; }
      var ch := next;
      next := ch + 1;
      chans := chans[ch := Chan(s, capacity, [], [], [], [], false, [], [])];
      NoDupSnoc(all, ch);
      all := [ch] + all;
      tasks := tasks[t := tasks[t].(ret := Handle(ch))];
      return true;
    }

    method SelectFire(t: TaskId, index: nat)
      requires !S.SelectFire(St(), t, index).Fault?
      modifies `tasks, `chans, `rq
      ensures S.SelectFire(old(St()), t, index) == Next(St())
      ensures chans.Keys == old(chans.Keys)
      ensures forall ch :: ch in chans ==> chans[ch] == old(chans)[ch].(selq := chans[ch].selq)
    {
      hide S.UnlinkAll;
      tasks := tasks[t := tasks[t].(fired := index)];
      SelectUnlinkAll(t);
      ChanWake(t);
    }

    method ChanSend(t: TaskId, ch: ChanId, v: int) returns (ok: bool)
      requires t in tasks && !S.Send(St(), t, ch, v).Fault?
      modifies `tasks, `chans, `rq, `cur
      ensures Did(S.Send(old(St()), t, ch, v), ok)
      ensures chans.Keys == old(chans.Keys)
    {
      hide S.SelectFire, S.Wake;
      if ch !in chans { return false; }
      if chans[ch].closed { return false; }
      var m := Msg(|chans[ch].log|, v);
      if chans[ch].recvq != [] {
        HandToReceiver(ch, m);
      } else if chans[ch].selq != [] {
        HandToSelect(ch, m);
      } else if |chans[ch].buf| < chans[ch].cap {
        chans := chans[ch := chans[ch].(buf := chans[ch].buf + [m], log := chans[ch].log + [v])];
      } else {
        tasks := tasks[t := tasks[t].(pending := Some(m), park := OnChan(ch, true),
                                      frame := InSend(ch))];
        chans := chans[ch := chans[ch].(sendq := chans[ch].sendq + [t], log := chans[ch].log + [v])];
        cur := None;
        return true;
      }
      tasks := tasks[t := tasks[t].(frame := Running, ret := Unit)];
      return true;
    }

    method HandToReceiver(ch: ChanId, m: Msg)
      requires ch in chans && chans[ch].recvq != [] && !S.HandToReceiver(St(), ch, m).Fault?
      modifies `tasks, `chans, `rq
      ensures S.HandToReceiver(old(St()), ch, m) == Next(St())
      ensures chans.Keys == old(chans.Keys)
    {
      var r := chans[ch].recvq[0];
      chans := chans[ch := chans[ch].(recvq := chans[ch].recvq[1..], log := chans[ch].log + [m.value],
                                      delivered := chans[ch].delivered + [m])];
      tasks := tasks[r := tasks[r].(pending := Some(m))];
      ChanWake(r);
    }

    // Peeks at the first registration; the firing takes it off the queue.
    method HandToSelect(ch: ChanId, m: Msg)
      requires ch in chans && chans[ch].selq != [] && !S.HandToSelect(St(), ch, m).Fault?
      modifies `tasks, `chans, `rq
      ensures S.HandToSelect(old(St()), ch, m) == Next(St())
      ensures chans.Keys == old(chans.Keys)
    {
      hide S.SelectFire;
      var w := chans[ch].selq[0];
      chans := chans[ch := chans[ch].(log := chans[ch].log + [m.value],
                                      delivered := chans[ch].delivered + [m])];
      tasks := tasks[w.task := tasks[w.task].(pending := Some(m), closedWake := false)];
      SelectFire(w.task, w.index);
    }

    // Takes the first parked sender off ch, with its message, and makes it runnable.
    method PopSender(ch: ChanId) returns (m: Msg)
      requires ch in chans && chans[ch].sendq != [] && !S.PopSender(St(), ch).Fault?
      modifies `tasks, `chans, `rq
      ensures S.PopSender(old(St()), ch) == Next((St(), m))
      ensures chans.Keys == old(chans.Keys)
    {
      var p := chans[ch].sendq[0];
      chans := chans[ch := chans[ch].(sendq := chans[ch].sendq[1..])];
      m := tasks[p].pending.value;
      tasks := tasks[p := tasks[p].(pending := None)];
      ChanWake(p);
    }

    method ChanPollTake(ch: ChanId) returns (k: S.Taken)
      requires ch in chans && !S.PollTake(St(), ch).Fault?
      modifies `tasks, `chans, `rq
      ensures S.PollTake(old(St()), ch) == Next((St(), k))
      ensures chans.Keys == old(chans.Keys)
    {
      hide S.PopSender;
      if chans[ch].buf != [] {
        var m := chans[ch].buf[0];
        chans := chans[ch := chans[ch].(buf := chans[ch].buf[1..],
                                        delivered := chans[ch].delivered + [m])];
        if chans[ch].sendq != [] {
          var pm := PopSender(ch);
          chans := chans[ch := chans[ch].(buf := chans[ch].buf + [pm])];
        }
        return S.Item(m);
      }
      if chans[ch].sendq != [] {
        var pm := PopSender(ch);
        chans := chans[ch := chans[ch].(delivered := chans[ch].delivered + [pm])];
        return S.Item(pm);
      }
      return if chans[ch].closed then S.End else S.NotReady;
    }

    method ChanRecv(t: TaskId, ch: ChanId) returns (ok: bool)
      requires t in tasks && !S.RecvOp(St(), t, ch).Fault?
      modifies `tasks, `chans, `rq, `cur
      ensures Did(S.RecvOp(old(St()), t, ch), ok)
      ensures chans.Keys == old(chans.Keys)
    {
      if ch !in chans { return false; }
      var k := ChanPollTake(ch);
      if !k.NotReady? {
        tasks := tasks[t := tasks[t].(frame := Running, ret := Received(S.AsRecv(k)))];
        return true;
      }
      tasks := tasks[t := tasks[t].(park := OnChan(ch, false), frame := InRecv(ch))];
      chans := chans[ch := chans[ch].(recvq := chans[ch].recvq + [t])];
      cur := None;
      return true;
    }

    method AfterSend(t: TaskId) returns (ok: bool)
      requires t in tasks
      modifies `tasks
      ensures Did(S.ResumeSend(old(St()), t), ok)
    {
      if tasks[t].closedWake { return false; }
      tasks := tasks[t := tasks[t].(frame := Running, ret := Unit)];
      return true;
    }

    // The value or the close that woke a receiver or a select.
    method TakeDelivery(t: TaskId) returns (r: Recv)
      requires t in tasks && !S.TakeDelivery(tasks[t]).Fault?
      modifies `tasks
      ensures tasks.Keys == old(tasks.Keys)
      ensures S.TakeDelivery(old(tasks)[t]) == Next((tasks[t], r))
      ensures tasks == old(tasks)[t := tasks[t]]
    {
      if tasks[t].closedWake {
        tasks := tasks[t := tasks[t].(closedWake := false, frame := Running)];
        return Closed;
      }
      r := Got(tasks[t].pending.value.value);
      tasks := tasks[t := tasks[t].(pending := None, frame := Running)];
    }

    method AfterRecv(t: TaskId)
      requires t in tasks && !S.ResumeRecv(St(), t).Fault?
      modifies `tasks
      ensures S.ResumeRecv(old(St()), t) == Next(St())
    {
      hide S.TakeDelivery;
      var r := TakeDelivery(t);
      tasks := tasks[t := tasks[t].(ret := Received(r))];
      assert tasks == old(tasks)[t := tasks[t]];
    }

    method AfterSelect(t: TaskId)
      requires t in tasks && !S.ResumeSelect(St(), t).Fault?
      modifies `tasks
      ensures S.ResumeSelect(old(St()), t) == Next(St())
    {
      hide S.TakeDelivery;
      var r := TakeDelivery(t);
      tasks := tasks[t := tasks[t].(ret := Selected(tasks[t].fired, r))];
      assert tasks == old(tasks)[t := tasks[t]];
    }

    // Wakes every parked task: receivers, then senders, then selects.
    method ChanClose(t: TaskId, ch: ChanId) returns (ok: bool)
      requires t in tasks && !S.Close(St(), t, ch).Fault?
      modifies `tasks, `chans, `rq
      ensures Did(S.Close(old(St()), t, ch), ok)
      ensures chans.Keys == old(chans.Keys)
    {
      hide S.Drain;
      if ch !in chans { return false; }
      if chans[ch].closed { return false; }
      chans := chans[ch := chans[ch].(closed := true)];
      CloseReceivers(ch);
      CloseSenders(ch);
      CloseSelects(ch);
      tasks := tasks[t := tasks[t].(frame := Running, ret := Unit)];
      return true;
    }

    method CloseReceivers(ch: ChanId)
      requires ch in chans && !S.Drain(St(), ch).Fault?
      modifies `tasks, `chans, `rq
      ensures chans.Keys == old(chans.Keys) && chans[ch].recvq == []
      ensures S.Drain(old(St()), ch) == S.Drain(St(), ch)
    {
      while chans[ch].recvq != []
        invariant ch in chans && chans.Keys == old(chans.Keys)
        invariant S.Drain(old(St()), ch) == S.Drain(St(), ch)
        decreases |chans[ch].recvq|
      {
        var r := chans[ch].recvq[0];
        chans := chans[ch := chans[ch].(recvq := chans[ch].recvq[1..])];
        tasks := tasks[r := tasks[r].(closedWake := true)];
        ChanWake(r);
      }
    }

    method CloseSenders(ch: ChanId)
      requires ch in chans && chans[ch].recvq == [] && !S.Drain(St(), ch).Fault?
      modifies `tasks, `chans, `rq
      ensures chans.Keys == old(chans.Keys) && chans[ch].recvq == [] && chans[ch].sendq == []
      ensures S.Drain(old(St()), ch) == S.Drain(St(), ch)
    {
      while chans[ch].sendq != []
        invariant ch in chans && chans.Keys == old(chans.Keys) && chans[ch].recvq == []
        invariant S.Drain(old(St()), ch) == S.Drain(St(), ch)
        decreases |chans[ch].sendq|
      {
        var p := chans[ch].sendq[0];
        chans := chans[ch := chans[ch].(sendq := chans[ch].sendq[1..])];
        tasks := tasks[p := tasks[p].(closedWake := true)];
        ChanWake(p);
      }
    }

    // Each firing moves the head of the queue.
    method CloseSelects(ch: ChanId)
      requires ch in chans && chans[ch].recvq == [] && chans[ch].sendq == []
      requires !S.Drain(St(), ch).Fault?
      modifies `tasks, `chans, `rq
      ensures chans.Keys == old(chans.Keys)
      ensures S.Drain(old(St()), ch) == Next(St())
    {
      hide S.SelectFire;
      while chans[ch].selq != []
        invariant ch in chans && chans.Keys == old(chans.Keys)
        invariant chans[ch].recvq == [] && chans[ch].sendq == []
        invariant S.Drain(old(St()), ch) == S.Drain(St(), ch)
        decreases |chans[ch].selq|
      {
        var w := chans[ch].selq[0];
        tasks := tasks[w.task := tasks[w.task].(closedWake := true)];
        SelectFire(w.task, w.index);
      }
    }

    // The scan takes from the first ready channel; when none is ready, one registration goes on
    // every channel, in order.
    method ChanSelect(t: TaskId, list: seq<ChanId>) returns (ok: bool)
      requires t in tasks && !S.Select(St(), t, list).Fault?
      modifies `tasks, `chans, `rq, `cur
      ensures Did(S.Select(old(St()), t, list), ok)
      ensures chans.Keys == old(chans.Keys)
    {
      if list == [] { return false; }
      var i := 0;
      while i < |list|
        invariant 0 <= i <= |list| && forall j :: 0 <= j < i ==> list[j] in chans
      {
        if list[i] !in chans { return false; }
        i := i + 1;
      }
      var k;
      i, k := SelectScan(list);
      if !k.NotReady? {
        tasks := tasks[t := tasks[t].(frame := Running, ret := Selected(i, S.AsRecv(k)))];
        return true;
      }
      SelectRegister(t, list);
      tasks := tasks[t := tasks[t].(regs := list, park := OnSelect, frame := InSelect)];
      cur := None;
      return true;
    }

    method SelectScan(list: seq<ChanId>) returns (i: nat, k: S.Taken)
      requires !S.Scan(St(), list, 0).Fault?
      modifies `tasks, `chans, `rq
      ensures S.Scan(old(St()), list, 0) == Next((St(), i, k))
      ensures chans.Keys == old(chans.Keys)
    {
      hide S.PollTake;
      i := 0;
      while i < |list|
        invariant 0 <= i <= |list| && chans.Keys == old(chans.Keys)
        invariant S.Scan(old(St()), list, 0) == S.Scan(St(), list, i)
      {
        k := ChanPollTake(list[i]);
        if !k.NotReady? { return; }
        i := i + 1;
      }
      return 0, S.NotReady;
    }

    method SelectRegister(t: TaskId, list: seq<ChanId>)
      requires !S.Register(chans, t, list, 0).Fault?
      modifies `chans
      ensures S.Register(old(chans), t, list, 0) == Next(chans)
      ensures chans.Keys == old(chans.Keys)
    {
      var i := 0;
      while i < |list|
        invariant 0 <= i <= |list| && chans.Keys == old(chans.Keys)
        invariant S.Register(old(chans), t, list, 0) == S.Register(chans, t, list, i)
      {
        var ch := list[i];
        chans := chans[ch := chans[ch].(selq := chans[ch].selq + [SelReg(t, i)])];
        i := i + 1;
      }
    }
  }
}
