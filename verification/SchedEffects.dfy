// The whole machine by its effects: when each step ends the process, and what it does when it does
// not.
module SchedEffects {
  import opened Common
  import opened SchedState
  import opened SchedSteps
  import opened SchedMachine
  import opened SchedInvariant
  import opened SchedPollOps
  import opened SchedScopeOps
  import opened SchedDeadline
  import opened SchedFinish
  import opened SchedEnd
  import opened SchedCancel
  import opened SchedChanOps
  import opened SchedRecvOps
  import opened SchedCloseOps
  import opened SchedRuns
  import opened SchedClosing
  import opened SchedDelivery
  import opened SchedTheorems
  import opened SchedReturns
  import opened SchedTurns
  import opened SchedNews

  // ---- When a step ends the process ----

  ghost predicate Refuses(st: State, op: Op) {
    match op
    case Pump => st.rq == []
    case Poll(_) => false
    case _ => st.cur.Some? && st.cur.value in st.tasks && CallRefuses(st, st.cur.value, op)
  }

  ghost predicate CallRefuses(st: State, t: TaskId, op: Op)
    requires t in st.tasks
  {
    match op
    case Continue => ResumeRefuses(st, t)
    case DoSpawn(s, _) => s !in st.scopes
    case DoAwait(u) => u !in st.tasks || !st.tasks[u].awaitable || st.tasks[u].dropped
    case DoAwaitDeadline(s, u, arm) =>
      s !in st.scopes || u !in st.tasks || !st.tasks[u].awaitable || arm == None
    case DoJoin(s) => s !in st.scopes || (st.scopes[s].live == 0 && !NobodyParked(st, s))
    case DoCancel(s, _) => s !in st.scopes || st.scopes[s].owner != t || !AllUnheld(st, s, t)
    case DoSleep(arm) => arm == None
    case DoChanNew(s, cap) => s !in st.scopes || cap < 0
    case DoSend(ch, _) => ch !in st.chans || st.chans[ch].closed
    case DoRecv(ch) => ch !in st.chans
    case DoClose(ch) => ch !in st.chans || st.chans[ch].closed
    case DoSelect(chs) => chs == [] || exists i :: 0 <= i < |chs| && chs[i] !in st.chans
    case _ => false
  }

  // A sender told of a close, a joiner with a task parked on a channel of its scope, and a deadline
  // owner whose child neither has ended, nor can be dropped, nor is ready.
  ghost predicate ResumeRefuses(st: State, t: TaskId)
    requires t in st.tasks
  {
    match st.tasks[t].frame
    case InSend(_) => st.tasks[t].closedWake
    case InJoin(s) => !NobodyParked(st, s)
    case InDeadline(_, u) => u in st.tasks && !Decided(st, u) && u !in st.rq
    case InDeadlineYield(_, u) => u in st.tasks && !Decided(st, u) && u !in st.rq
    case _ => false
  }

  // A step ends the process exactly then, and otherwise goes on.
  lemma StepAborts(st: State, op: Op)
    requires Inv(st) && Enabled(st, op)
    ensures Exec(st, op).Abort? <==> Refuses(st, op)
    ensures Exec(st, op).Next? <==> !Refuses(st, op)
  {
    hide Inv, CallerOk, Call, Dispatch, Harvest, CallRefuses;
    StepSafe(st, op);
    if op.Pump? {
      DispatchSafe(st);
    } else if op.Poll? {
      HarvestSafe(st, op.batch);
    } else {
      InvCurrent(st);
      CallAborts(st, st.cur.value, op);
    }
  }

  lemma InvCurrent(st: State)
    requires Inv(st) && st.cur.Some?
    ensures st.cur.value in st.tasks
  {
    hide Core, ChansOk, ClosedOk;
    CurrentThere(st);
  }

  lemma CallAborts(st: State, t: TaskId, op: Op)
    requires Inv(st) && st.cur == Some(t) && t in st.tasks && !op.Pump? && !op.Poll?
    requires (op.Continue? <==> !st.tasks[t].frame.Running?) && CallerOk(st, t, op)
    ensures Call(st, t, op).Abort? <==> CallRefuses(st, t, op)
  {
    hide Inv, Resume, Yield, Finish, ScopeOpen, Spawn, Await, AwaitDeadline, Join, Cancel, ParkOnFd;
    hide ParkOnFdTimeout, Sleep, ChanNew, Send, RecvOp, Close, Select, AllUnheld, CancelEffect;
    hide NobodyParked, ResumeRefuses;
    match op
    case Continue => ResumeAborts(st, t);
    case DoYield => YieldSafe(st, t);
    case DoFinish(r) => FinishSafe(st, t, r);
    case DoScopeOpen => ScopeOpenSafe(st, t);
    case DoSpawn(s, a) => SpawnSafe(st, t, s, a);
    case DoAwait(u) => AwaitSafe(st, t, u);
    case DoAwaitDeadline(s, u, arm) => AwaitDeadlineSafe(st, t, s, u, arm);
    case DoJoin(s) => JoinSafe(st, t, s);
    case DoCancel(s, all) => CancelSafe(st, t, s, all);
    case DoParkFd(fd) => ParkOnFdSafe(st, t, fd);
    case DoParkFdTimeout(fd, arm) => ParkOnFdTimeoutSafe(st, t, fd, arm);
    case DoSleep(arm) => SleepSafe(st, t, arm);
    case DoChanNew(s, cap) => ChanNewSafe(st, t, s, cap);
    case DoSend(ch, v) => SendSafe(st, t, ch, v);
    case DoRecv(ch) => RecvSafe(st, t, ch);
    case DoClose(ch) => CloseSafe(st, t, ch);
    case DoSelect(chs) => SelectSafe(st, t, chs);
  }

  lemma ResumeAborts(st: State, t: TaskId)
    requires Inv(st) && st.cur == Some(t) && t in st.tasks && !st.tasks[t].frame.Running?
    requires CallerOk(st, t, Continue)
    ensures Resume(st, t).Abort? <==> ResumeRefuses(st, t)
  {
    hide Inv, Resume, NobodyParked, Decided, CallerOk, Returned, JoinEffect;
    CarriesItself(st.tasks[t]);
    CarriedAnswers(st.tasks[t], st, t);
  }

  // ---- What a step does ----

  ghost predicate Does(st: State, st': State, op: Op) {
    match op
    case Pump => Dispatched(st, st')
    case Poll(batch) => BatchOk(st, batch) && BatchEffect(st, st', batch)
    case _ => st.cur.Some? && st.cur.value in st.tasks && CallDoes(st, st', st.cur.value, op)
  }

  // Each suspended task that is named is ready, once, in order of first mention, and told which of
  // its registrations came first; exactly the registrations that are named are gone.
  ghost predicate BatchEffect(st: State, st': State, batch: seq<Event>)
    requires BatchOk(st, batch)
  {
    && st'.rq == st.rq + Firsts(Owners(st, batch), st.io)
    && (forall t :: t in st'.io <==> t in st.io && t !in Owners(st, batch))
    && st'.timers == st.timers - TimersIn(batch) && st'.fds == st.fds - FdsIn(batch)
    && AllTold(st, st', Owners(st, batch), batch)
  }

  ghost predicate CallDoes(st: State, st': State, t: TaskId, op: Op)
    requires t in st.tasks
  {
    match op
    case Pump => false
    case Poll(_) => false
    case Continue => Resume(st, t) == Next(st') && Answers(st.tasks[t], st, t)
    case DoYield => Yielded(st, st', t)
    case DoFinish(r) => EndEffect(st, st', t, r)
    case DoScopeOpen => Opened(st, st', t)
    case DoSpawn(s, a) => Started(st, st', t, s, a)
    case DoAwait(u) => AwaitEffect(st, st', t, u)
    case DoAwaitDeadline(s, u, arm) => arm.Some? && DeadlineParked(st, st', t, s, u, arm.value)
    case DoJoin(s) =>
      && s in st.scopes
      && if st.scopes[s].live > 0 then JoinParked(st, st', t, s) else JoinEffect(st, st', t, s)
    case DoCancel(s, _) => CancelEffect(st, st', t, s)
    case DoParkFd(fd) => PollerParked(st, st', t, InFd(fd), st.fds[fd := t], st.timers)
    case DoParkFdTimeout(fd, arm) =>
      (match arm
       case None => Returned(st, st', t, Flag(false))
       case Some(tid) =>
         PollerParked(st, st', t, InFdTimed(fd, tid), st.fds[fd := t], st.timers[tid := t]))
    case DoSleep(arm) =>
      arm.Some? && PollerParked(st, st', t, InSleep, st.fds, st.timers[arm.value := t])
    case DoChanNew(s, cap) => ChanMade(st, st', t, s, cap)
    case DoSend(ch, v) =>
      && ch in st.chans
      && (if st.chans[ch].recvq != [] then HandedOver(st, st', t, ch, v)
          else if st.chans[ch].selq != [] then SentToSelect(st, st', t, ch, v)
          else Queued(st, st', t, ch, v))
    case DoRecv(ch) => ch in st.chans && RecvEffect(st, st', t, ch)
    case DoClose(ch) => CloseEffect(st, st', t, ch)
    case DoSelect(chs) =>
      && (forall i :: 0 <= i < |chs| ==> chs[i] in st.chans)
      && (forall i {:trigger chs[i]} :: 0 <= i < |chs| && FirstReady(st, chs, i) ==>
            SelectTaken(st, st', t, chs[i], i))
      && ((forall i :: 0 <= i < |chs| ==> !ReadyChan(st, chs[i])) ==> SelectParked(st, st', t, chs))
  }

  ghost predicate FirstReady(st: State, chs: seq<ChanId>, i: nat)
    requires i < |chs| && forall j :: 0 <= j < |chs| ==> chs[j] in st.chans
  {
    ReadyChan(st, chs[i]) && forall j :: 0 <= j < i ==> !ReadyChan(st, chs[j])
  }

  // Every step that goes on does what its operation is for, to the caller and to everyone else.
  lemma StepDoes(st: State, op: Op)
    requires Inv(st) && Enabled(st, op) && Exec(st, op).Next?
    ensures Does(st, Exec(st, op).value, op)
  {
    hide Inv, CallerOk, Call, Dispatch, Harvest, CallDoes, Firsts, TimersIn, FdsIn, AllTold;
    if op.Pump? {
      DispatchSafe(st);
    } else if op.Poll? {
      BatchWakes(st, op.batch);
    } else {
      InvCurrent(st);
      CallDone(st, st.cur.value, op);
    }
  }

  lemma CallDone(st: State, t: TaskId, op: Op)
    requires Inv(st) && st.cur == Some(t) && t in st.tasks && !op.Pump? && !op.Poll?
    requires (op.Continue? <==> !st.tasks[t].frame.Running?) && CallerOk(st, t, op)
    requires Call(st, t, op).Next?
    ensures CallDoes(st, Call(st, t, op).value, t, op)
  {
    hide Inv, Resume, Yield, Finish, ScopeOpen, Spawn, Await, AwaitDeadline, Join, Cancel, ParkOnFd;
    hide ParkOnFdTimeout, Sleep, ChanNew, Send, RecvOp, Close, Select, AllUnheld, CancelEffect;
    hide Answers, Yielded, EndEffect, Opened, Started, AwaitEffect, DeadlineParked, JoinParked;
    hide JoinEffect, PollerParked, Returned, ChanMade, HandedOver, SentToSelect, Queued, RecvEffect;
    hide CloseEffect, SelectTaken, SelectParked, ReadyChan, NobodyParked, Unawaited;
    match op
    case Continue =>
      CarriesItself(st.tasks[t]);
      CarriedAnswers(st.tasks[t], st, t);
    case DoYield => YieldSafe(st, t);
    case DoFinish(r) => FinishWakes(st, t, r);
    case DoScopeOpen => ScopeOpenSafe(st, t);
    case DoSpawn(s, a) =>
      SpawnSafe(st, t, s, a);
      SpawnStarts(st, t, s, a);
    case DoAwait(u) =>
      AwaitSafe(st, t, u);
      AwaitAtOnce(st, t, u);
    case DoAwaitDeadline(s, u, arm) => AwaitDeadlineSafe(st, t, s, u, arm);
    case DoJoin(s) => JoinSafe(st, t, s);
    case DoCancel(s, all) => CancelSafe(st, t, s, all);
    case DoParkFd(fd) => ParkOnFdSafe(st, t, fd);
    case DoParkFdTimeout(fd, arm) => ParkOnFdTimeoutSafe(st, t, fd, arm);
    case DoSleep(arm) => SleepSafe(st, t, arm);
    case DoChanNew(s, cap) => ChanNewSafe(st, t, s, cap);
    case DoSend(ch, v) => SendDone(st, t, ch, v);
    case DoRecv(ch) =>
      RecvSafe(st, t, ch);
      RecvTakesOldest(st, t, ch);
    case DoClose(ch) =>
      CloseSafe(st, t, ch);
      CloseWakes(st, t, ch);
    case DoSelect(chs) => SelectDone(st, t, chs);
  }

  lemma SendDone(st: State, t: TaskId, ch: ChanId, v: int)
    requires Ready(st, t) && Send(st, t, ch, v).Next?
    ensures ch in st.chans
    ensures var st' := Send(st, t, ch, v).value;
      if st.chans[ch].recvq != [] then HandedOver(st, st', t, ch, v)
      else if st.chans[ch].selq != [] then SentToSelect(st, st', t, ch, v)
      else Queued(st, st', t, ch, v)
  {
    hide Inv, Send, HandedOver, SentToSelect, Queued;
    SendSafe(st, t, ch, v);
    if st.chans[ch].recvq != [] {
      SendHandsOver(st, t, ch, v);
    } else if st.chans[ch].selq != [] {
      SelectReceives(st, t, ch, v);
    } else {
      SendQueues(st, t, ch, v);
    }
  }

  lemma SelectDone(st: State, t: TaskId, chs: seq<ChanId>)
    requires Ready(st, t) && Select(st, t, chs).Next?
    ensures CallDoes(st, Select(st, t, chs).value, t, DoSelect(chs))
  {
    hide Inv, Select, SelectTaken, SelectParked, ReadyChan;
    SelectSafe(st, t, chs);
    forall i | 0 <= i < |chs| && FirstReady(st, chs, i)
      ensures SelectTaken(st, Select(st, t, chs).value, t, chs[i], i)
    {
      SelectTakesFirst(st, t, chs, i);
    }
    if forall i :: 0 <= i < |chs| ==> !ReadyChan(st, chs[i]) {
      SelectParks(st, t, chs);
    }
  }
}
