// One step of the code from a state a run can be in: it does what the step relation says, is
// never undefined, and leaves the invariant and the channel list as they must be.
module SchedCodeRuns {
  import opened Common
  import opened SchedState
  import opened SchedMachine
  import opened SchedInvariant
  import opened SchedCode
  import O = SchedScopeOps
  import R = SchedRuns

  method Step(g: Scheduler, op: Op) returns (ok: bool)
    requires Inv(g.St()) && g.Listed() && Enabled(g.St(), op)
    requires op.DoCancel? ==> op.all == g.all
    modifies g
    ensures g.Did(Exec(old(g.St()), op), ok)
    ensures ok ==> Inv(g.St()) && g.Listed()
  {
    hide Inv, CallerOk;
    R.StepSafe(g.St(), op);
    if op.Pump? {
      ok := g.PumpNext();
    } else if op.Poll? {
      g.PumpBatch(op.batch);
      ok := true;
    } else {
      ok := CallStep(g, g.cur.value, op);
    }
  }

  method CallStep(g: Scheduler, t: TaskId, op: Op) returns (ok: bool)
    requires Inv(g.St()) && g.Listed() && t in g.tasks && !op.Pump? && !op.Poll?
    requires op.DoCancel? ==> op.all == g.all
    requires !Call(g.St(), t, op).Fault?
    modifies g
    ensures g.Did(Call(old(g.St()), t, op), ok)
    ensures ok ==> g.Listed()
  {
    hide Inv, S.Resume, S.Yield, S.Finish, S.ScopeOpen, S.Spawn, S.Await, S.AwaitDeadline, S.Join;
    hide S.Cancel, S.ParkOnFd, S.ParkOnFdTimeout, S.Sleep, S.ChanNew, S.Send, S.RecvOp, S.Close;
    hide S.Select;
    O.FreshIds(g.St());
    ok := true;
    match op {
      case Continue => ok := ContinueStep(g, t);
      case DoYield => g.TaskYield(t);
      case DoFinish(r) => g.TaskFinish(t, r);
      case DoScopeOpen => g.ScopeOpen(t);
      case DoSpawn(s, a) => ok := g.TaskCreate(t, s, a);
      case DoAwait(u) => ok := g.TaskAwait(t, u);
      case DoAwaitDeadline(s, u, arm) => ok := g.AwaitDeadline(t, s, u, arm);
      case DoJoin(s) => ok := g.ScopeJoin(t, s);
      case DoCancel(s, _) => ok := g.ScopeCancel(t, s);
      case DoParkFd(fd) => g.ParkOnFd(t, fd);
      case DoParkFdTimeout(fd, arm) => g.ParkOnFdTimeout(t, fd, arm);
      case DoSleep(arm) => ok := g.ParkOnTimer(t, arm);
      case DoChanNew(s, cap) => ok := g.ChanNew(t, s, cap);
      case DoSend(ch, v) => ok := g.ChanSend(t, ch, v);
      case DoRecv(ch) => ok := g.ChanRecv(t, ch);
      case DoClose(ch) => ok := g.ChanClose(t, ch);
      case DoSelect(list) => ok := g.ChanSelect(t, list);
    }
  }

  // The code after each park.
  method ContinueStep(g: Scheduler, t: TaskId) returns (ok: bool)
    requires g.Listed() && t in g.tasks && !S.Resume(g.St(), t).Fault?
    modifies g
    ensures g.Did(S.Resume(old(g.St()), t), ok)
    ensures ok ==> g.Listed()
  {
    ok := true;
    match g.tasks[t].frame {
      case Running =>
      case InFd(_) => Return(g, t);
      case InFdTimed(fd, tid) => g.AfterFdTimeout(t, fd, tid);
      case InSleep => Return(g, t);
      case InDeadline(s, u) =>
        g.tasks := g.tasks[t := g.tasks[t].(frame := Running, deadlineChild := None)];
        ok := g.AfterDeadline(t, s, u);
      case InDeadlineYield(s, u) =>
        g.tasks := g.tasks[t := g.tasks[t].(frame := Running)];
        ok := g.AfterDeadline(t, s, u);
      case InAwait(u) => g.AfterAwait(t, u);
      case InJoin(s) => ok := g.AfterJoin(t, s);
      case InSend(_) => ok := g.AfterSend(t);
      case InRecv(_) => g.AfterRecv(t);
      case InSelect => g.AfterSelect(t);
    }
  }

  method Return(g: Scheduler, t: TaskId)
    requires t in g.tasks
    modifies g`tasks
    ensures S.ReturnTo(old(g.St()), t, Unit) == Next(g.St())
  {
    g.tasks := g.tasks[t := g.tasks[t].(frame := Running, ret := Unit)];
  }
}
