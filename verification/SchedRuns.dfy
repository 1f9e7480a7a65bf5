// The safety of every run: no step of a legal run is undefined, and every state a run reaches
// satisfies the invariant.
module SchedRuns {
  import opened Common
  import opened SchedState
  import opened SchedSteps
  import opened SchedMachine
  import opened SchedInvariant
  import opened SchedPollOps
  import opened SchedScopeOps
  import opened SchedDeadline
  import opened SchedJoin
  import opened SchedEnd
  import opened SchedFinish
  import opened SchedCancel
  import opened SchedChanOps
  import opened SchedRecvOps
  import opened SchedCloseOps

  // Task 0 runs, with nothing registered, no scope and no channel.
  lemma InitInv()
    ensures Inv(Init)
    ensures Init.cur == Some(0) && Init.tasks.Keys == {0} && Alive(Init, 0)
    ensures Init.tasks[0].frame.Running? && Init.tasks[0].scope == None && !Init.tasks[0].awaitable
    ensures Init.rq == Init.io == [] && Init.scopes == map[] && Init.chans == map[]
    ensures Init.fds == map[] && Init.timers == map[]
  {
    assert Core(Init, {}) by {
      assert ScopesOk(Init.tasks, Init.scopes);
      assert FramesOk(Init, {});
    }
  }

  // Whatever a task was parked on, it may go on when the pump has switched into it.
  lemma ResumeSafe(st: State, t: TaskId)
    requires Inv(st) && st.cur == Some(t) && t in st.tasks && !st.tasks[t].frame.Running?
    requires CallerOk(st, t, Continue)
    ensures Safe(Resume(st, t))
  {
    hide Core, ChansOk, ClosedOk, Classify, ResumeFdTimeout, JoinTail, NoOpenScope, JoinReady;
    match st.tasks[t].frame
    case InFd(_) => ReturnSafeFrom(st, t);
    case InFdTimed(fd, tid) => ResumeFdTimeoutSafe(st, t, fd, tid);
    case InSleep => ReturnSafeFrom(st, t);
    case InDeadline(s, u) => ResumeDeadlineSafe(st, t, s, u);
    case InDeadlineYield(s, u) => ResumeDeadlineSafe(st, t, s, u);
    case InAwait(u) => ResumeAwaitSafe(st, t, u);
    case InJoin(s) => ResumeJoinSafe(st, t, s);
    case InSend(_) => ResumeSendSafe(st, t);
    case InRecv(_) => ResumeRecvSafe(st, t);
    case InSelect => ResumeSelectSafe(st, t);
  }

  lemma ReturnSafeFrom(st: State, t: TaskId)
    requires Inv(st) && st.cur == Some(t) && t in st.tasks
    requires st.tasks[t].frame.InFd? || st.tasks[t].frame.InSleep?
    ensures Safe(ReturnTo(st, t, Unit))
  {
    hide Core, ChansOk, ClosedOk, Context;
    OwnFacts(st, t);
    ReturnSafe(st, t, st.tasks[t].(frame := Running, ret := Unit));
  }

  // A builtin called by a task that is running its own code.
  lemma CallSafe(st: State, t: TaskId, op: Op)
    requires Ready(st, t) && !op.Pump? && !op.Poll? && !op.Continue?
    requires CallerOk(st, t, op)
    ensures Safe(Call(st, t, op))
  {
    hide Inv, Yield, Finish, ScopeOpen, Spawn, Await, AwaitDeadline, Join, Cancel, ParkOnFd;
    hide ParkOnFdTimeout, Sleep, ChanNew, Send, RecvOp, Close, Select, AllUnheld, CancelEffect;
    match op
    case DoYield => YieldSafe(st, t);
    case DoFinish(r) => FinishSafe(st, t, r);
    case DoScopeOpen => ScopeOpenSafe(st, t);
    case DoSpawn(s, a) => SpawnSafe(st, t, s, a);
    case DoAwait(u) => AwaitSafe(st, t, u);
    case DoAwaitDeadline(s, u, arm) => AwaitDeadlineSafe(st, t, s, u, arm);
    case DoJoin(s) => JoinSafe(st, t, s);
    case DoCancel(s, all) => CancelSafe(st, t, s, all);
    case DoParkFd(fd) => ParkOnFdSafe(st, t, fd);
    case DoParkFdTimeout(fd, arm) => ParkOnFdTimeoutSafe(st, t, fd, arm);
    case DoSleep(arm) => SleepSafe(st, t, arm);
    case DoChanNew(s, cap) => ChanNewSafe(st, t, s, cap);
    case DoSend(ch, v) => SendSafe(st, t, ch, v);
    case DoRecv(ch) => RecvSafe(st, t, ch);
    case DoClose(ch) => CloseSafe(st, t, ch);
    case DoSelect(chs) => SelectSafe(st, t, chs);
  }

  // No enabled step is undefined, and each keeps the invariant or ends the process.
  lemma StepSafe(st: State, op: Op)
    requires Inv(st) && Enabled(st, op)
    ensures Safe(Exec(st, op))
  {
    hide Core, ChansOk, ClosedOk, CallerOk, Call, Dispatch, Harvest, Resume;
    if op.Pump? {
      DispatchSafe(st);
    } else if op.Poll? {
      HarvestSafe(st, op.batch);
    } else {
      CurrentThere(st);
      var t := st.cur.value;
      if op.Continue? {
        assert Call(st, t, op) == Resume(st, t) by {
          CallContinue(st, t);
        }
        ResumeSafe(st, t);
      } else {
        CallSafe(st, t, op);
      }
    }
  }

  lemma CallContinue(st: State, t: TaskId)
    requires t in st.tasks
    ensures Call(st, t, Continue) == Resume(st, t)
  {
  }

  lemma CurrentThere(st: State)
    requires Core(st, {}) && st.cur.Some?
    ensures st.cur.value in st.tasks
  {
  }

  lemma {:induction false} RunSafe(st: State, ops: seq<Op>)
    requires Inv(st) && Legal(st, ops)
    ensures Safe(Run(st, ops))
    decreases |ops|
  {
    hide Inv, Exec, Enabled;
    if ops != [] {
      StepSafe(st, ops[0]);
      if Exec(st, ops[0]).Next? {
        RunSafe(Exec(st, ops[0]).value, ops[1..]);
      }
    }
  }

  // The main theorem: from the initial state, no legal run ever wakes a task twice, follows
  // a pointer to a freed record, tears down a timer or fd that is not the task's own, unlinks
  // a record that is not linked, destroys a stack twice, frees a live task, delivers nothing,
  // or loops without progress; and where it stops the invariant holds.
  lemma EveryRunSafe(ops: seq<Op>)
    requires Legal(Init, ops)
    ensures !Run(Init, ops).Fault?
    ensures Run(Init, ops).Next? ==> Inv(Run(Init, ops).value)
  {
    hide Inv, Run, Legal;
    InitInv();
    RunSafe(Init, ops);
  }
}
