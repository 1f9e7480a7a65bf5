// From the wake to the return: what a task was told when it was made ready is what its call
// returns when its turn comes, whatever other tasks do in between.
module SchedNews {
  import opened Common
  import opened SchedState
  import opened SchedSteps
  import opened SchedMachine
  import opened SchedInvariant
  import opened SchedPollOps
  import opened SchedScopeOps
  import opened SchedDeadline
  import opened SchedEnd
  import opened SchedChanOps
  import opened SchedTurns
  import opened SchedTheorems
  import opened SchedDelivery
  import opened SchedReturns
  import opened SchedCloseOps
  import opened SchedClosing

  // ---- What the call returns ----

  // What a woken receiver or select was given.
  function News(x: Task): Recv {
    if x.closedWake || x.pending == None then Closed else Got(x.pending.value.value)
  }

  // The call of a task with record x returns what x was told: a value or the close, a value or
  // the close with its place in the select's list, whether the descriptor came before the timer,
  // the result of the task it awaited; a sleep, a plain wait for a descriptor and a send just
  // return. A sender told of a close aborts, and so does a joiner that finds a task parked on a
  // channel of its scope, or a deadline owner whose child can neither be dropped nor run.
  ghost predicate Answers(x: Task, st: State, u: TaskId)
    requires u in st.tasks
  {
    var o := Resume(st, u);
    match x.frame
    case InRecv(_) => o.Next? && u in o.value.tasks && o.value.tasks[u].ret == Received(News(x))
    case InSelect =>
      o.Next? && u in o.value.tasks && o.value.tasks[u].ret == Selected(x.fired, News(x))
    case InSend(_) =>
      if x.closedWake then o.Abort? else o.Next? && Returned(st, o.value, u, Unit)
    case InFd(_) => o.Next? && Returned(st, o.value, u, Unit)
    case InSleep => o.Next? && Returned(st, o.value, u, Unit)
    case InAwait(c) =>
      c in st.tasks && o.Next? && Returned(st, o.value, u, Result(st.tasks[c].result))
    case InJoin(s) =>
      if NobodyParked(st, s) then o.Next? && JoinEffect(st, o.value, u, s) else o.Abort?
    case InDeadline(s, c) => CallerOk(st, u, Continue) ==> Decides(st, u, c)
    case InDeadlineYield(s, c) => CallerOk(st, u, Continue) ==> Decides(st, u, c)
    case InFdTimed(_, _) =>
      o.Next? && u in o.value.tasks && o.value.tasks[u].ret == Flag(!x.wokeByTimer)
    case Running => true
  }

  // A deadline owner returns with the fate of its child, steps behind it, or aborts.
  ghost predicate Decides(st: State, u: TaskId, c: TaskId)
    requires u in st.tasks
  {
    var o := Resume(st, u);
    && c in st.tasks
    && (if Decided(st, c) then
          o.Next? && Ready(o.value, u) && o.value.tasks[u].ret == Flag(st.tasks[c].done)
        else if c in st.rq then o.Next? && o.value.cur == None && o.value.rq == st.rq + [u]
        else o.Abort?)
  }

  // A ready task is started at its turn, and its call then answers with what it was told.
  lemma TurnAnswers(st: State, ops: seq<Op>, k: nat)
    requires Inv(st) && RunsTo(st, ops, k)
    ensures var st', u := Run(st, ops).value, st.rq[k];
      && st'.cur == Some(u) && u in st.tasks && u in st'.tasks
      && Answers(st.tasks[u], st', u)
  {
    hide Inv, Carries, Resume, Legal, Run;
    RunsInTurn(st, ops, k);
    CarriedAnswers(st.tasks[st.rq[k]], Run(st, ops).value, st.rq[k]);
  }

  lemma CarriedAnswers(x: Task, st: State, u: TaskId)
    requires Inv(st) && st.cur == Some(u) && u in st.tasks && Carries(x, st.tasks[u])
    ensures Answers(x, st, u)
  {
    hide Inv, Resume, Decides, Returned, JoinEffect, NobodyParked, CallerOk;
    match x.frame {
      case InRecv(_) => ReceiverReturns(st, u);
      case InSelect => ReceiverReturns(st, u);
      case InFdTimed(fd, tid) => BoundedWaitReturns(st, u, fd, tid);
      case InSend(_) => SenderReturns(st, u);
      case InFd(_) => PlainReturns(st, u);
      case InSleep => PlainReturns(st, u);
      case InAwait(c) => AwaitReturns(st, u, c);
      case InJoin(s) => JoinerReturns(st, u, s);
      case InDeadline(s, c) => OwnerDecides(st, u, s, c);
      case InDeadlineYield(s, c) => OwnerDecides(st, u, s, c);
      case Running =>
    }
  }

  lemma JoinerReturns(st: State, u: TaskId, s: ScopeId)
    requires Inv(st) && st.cur == Some(u) && u in st.tasks && st.tasks[u].frame == InJoin(s)
    ensures if NobodyParked(st, s) then Resume(st, u).Next? && JoinEffect(st, Resume(st, u).value, u, s)
            else Resume(st, u).Abort?
  {
    hide Inv, JoinEffect, NobodyParked, Resume;
    JoinerScope(st, u, s);
    JoinReturns(st, u, s);
  }

  lemma JoinerScope(st: State, u: TaskId, s: ScopeId)
    requires Inv(st) && st.cur == Some(u) && u in st.tasks && st.tasks[u].frame == InJoin(s)
    ensures s in st.scopes
  {
    hide Core, ChansOk, ClosedOk, Context;
    OwnFacts(st, u);
  }

  lemma OwnerDecides(st: State, u: TaskId, s: ScopeId, c: TaskId)
    requires DeadlineResumes(st, u, s, c)
    ensures CallerOk(st, u, Continue) ==> Decides(st, u, c)
  {
    hide Inv, Resume, CallerOk, Decided;
    if CallerOk(st, u, Continue) {
      DeadlineReturns(st, u, s, c);
      if c in st.rq {
        DeadlineYields(st, u, s, c);
      }
    }
  }

  lemma SenderReturns(st: State, u: TaskId)
    requires u in st.tasks && st.tasks[u].frame.InSend?
    ensures if st.tasks[u].closedWake then Resume(st, u).Abort?
            else Resume(st, u).Next? && Returned(st, Resume(st, u).value, u, Unit)
  {
  }

  // ---- From end to end ----

  // A value sent to a channel with parked receivers is what the receiver that has waited longest
  // returns at its turn, the turn after those that were ready before.
  lemma SendArrives(st: State, t: TaskId, ch: ChanId, v: int, ops: seq<Op>)
    requires Ready(st, t)
    requires ch in st.chans && !st.chans[ch].closed && st.chans[ch].recvq != []
    requires Send(st, t, ch, v).Next? && RunsTo(Send(st, t, ch, v).value, ops, |st.rq|)
    ensures var st2, r := Run(Send(st, t, ch, v).value, ops).value, st.chans[ch].recvq[0];
      && st2.cur == Some(r) && r in st2.tasks && Resume(st2, r).Next?
      && r in Resume(st2, r).value.tasks
      && Resume(st2, r).value.tasks[r].ret == Received(Got(v))
  {
    hide Inv, Send, Resume, RunsTo, Run;
    SendHandsOver(st, t, ch, v);
    SendSafe(st, t, ch, v);
    TurnAnswers(Send(st, t, ch, v).value, ops, |st.rq|);
  }

  // With selects parked and no receiver, the select registered longest returns it, with a place
  // of the channel in its list.
  lemma SelectArrives(st: State, t: TaskId, ch: ChanId, v: int, ops: seq<Op>)
    requires Ready(st, t)
    requires ch in st.chans && !st.chans[ch].closed
    requires st.chans[ch].recvq == [] && st.chans[ch].selq != []
    requires Send(st, t, ch, v).Next? && RunsTo(Send(st, t, ch, v).value, ops, |st.rq|)
    ensures var st2, w := Run(Send(st, t, ch, v).value, ops).value, st.chans[ch].selq[0];
      && w.task in st.tasks && w.index < |st.tasks[w.task].regs|
      && st.tasks[w.task].regs[w.index] == ch
      && st2.cur == Some(w.task) && w.task in st2.tasks && Resume(st2, w.task).Next?
      && w.task in Resume(st2, w.task).value.tasks
      && Resume(st2, w.task).value.tasks[w.task].ret == Selected(w.index, Got(v))
  {
    hide Inv, Send, Resume, RunsTo, Run;
    SelectReceives(st, t, ch, v);
    SendSafe(st, t, ch, v);
    TurnAnswers(Send(st, t, ch, v).value, ops, |st.rq|);
  }

  // Everyone parked on a channel that is closed gets the news at its turn, in the order receivers,
  // senders, selects: a receiver and a select return Closed, the select with a place of the
  // channel in its list, and a sender aborts.
  lemma CloseArrives(st: State, t: TaskId, ch: ChanId, i: nat, ops: seq<Op>)
    requires Ready(st, t) && ch in st.chans && !st.chans[ch].closed
    requires i < |Audience(st.chans[ch])|
    requires Close(st, t, ch).Next? && RunsTo(Close(st, t, ch).value, ops, |st.rq| + i)
    ensures var st2, u := Run(Close(st, t, ch).value, ops).value, Audience(st.chans[ch])[i];
      && u in st.tasks && st2.cur == Some(u) && u in st2.tasks
      && (match st.tasks[u].frame
          case InRecv(_) =>
            Resume(st2, u).Next? && u in Resume(st2, u).value.tasks
            && Resume(st2, u).value.tasks[u].ret == Received(Closed)
          case InSelect =>
            Resume(st2, u).Next? && u in Resume(st2, u).value.tasks
            && exists p: nat :: p < |st.tasks[u].regs| && st.tasks[u].regs[p] == ch
                   && Resume(st2, u).value.tasks[u].ret == Selected(p, Closed)
          case InSend(_) => Resume(st2, u).Abort?
          case _ => false)
  {
    hide Inv, Close, Resume, Legal, Turns, Run, Audience, Heard, Answers;
    CloseReaches(st, t, ch, i);
    CloseSafe(st, t, ch);
    TurnAnswers(Close(st, t, ch).value, ops, |st.rq| + i);
    HeardAnswers(st, Close(st, t, ch).value, Run(Close(st, t, ch).value, ops).value, ch,
                 Audience(st.chans[ch])[i]);
  }

  lemma CloseReaches(st: State, t: TaskId, ch: ChanId, i: nat)
    requires Ready(st, t) && ch in st.chans && !st.chans[ch].closed
    requires i < |Audience(st.chans[ch])|
    ensures Close(st, t, ch).Next?
    ensures var st1, u := Close(st, t, ch).value, Audience(st.chans[ch])[i];
      && ch in st1.chans && Heard(st, st1, u, ch)
      && |st.rq| + i < |st1.rq| && st1.rq[|st.rq| + i] == u
  {
    hide Inv, Close, Audience, Heard;
    CloseWakes(st, t, ch);
    assert Audience(st.chans[ch])[i] in Audience(st.chans[ch]);
  }

  lemma HeardAnswers(st: State, st1: State, st2: State, ch: ChanId, u: TaskId)
    requires ch in st.chans && ch in st1.chans && Heard(st, st1, u, ch)
    requires u in st2.tasks && Answers(st1.tasks[u], st2, u)
    ensures u in st.tasks
    ensures match st.tasks[u].frame
            case InRecv(_) =>
              Resume(st2, u).Next? && u in Resume(st2, u).value.tasks
              && Resume(st2, u).value.tasks[u].ret == Received(Closed)
            case InSelect =>
              Resume(st2, u).Next? && u in Resume(st2, u).value.tasks
              && exists p: nat :: p < |st.tasks[u].regs| && st.tasks[u].regs[p] == ch
                     && Resume(st2, u).value.tasks[u].ret == Selected(p, Closed)
            case InSend(_) => Resume(st2, u).Abort?
            case _ => false
  {
    hide Resume;
  }

  // A bounded wait for a descriptor returns true if the first event of the batch that woke it was
  // its descriptor, and false if it was its timer.
  lemma TimedWaitAnswers(st: State, batch: seq<Event>, t: TaskId, k: nat, ops: seq<Op>)
    requires Inv(st) && Enabled(st, Poll(batch)) && t in st.io && t in st.tasks
    requires st.tasks[t].frame.InFdTimed? && t in Owners(st, batch)
    requires Harvest(st, batch).Next? && RunsTo(Harvest(st, batch).value, ops, k)
    requires Harvest(st, batch).value.rq[k] == t
    ensures var st2 := Run(Harvest(st, batch).value, ops).value;
      && st2.cur == Some(t) && t in st2.tasks && Resume(st2, t).Next?
      && t in Resume(st2, t).value.tasks
      && Resume(st2, t).value.tasks[t].ret == Flag(!ByTimer(Owners(st, batch), batch, t))
  {
    hide Inv, Harvest, Resume, Run, Legal, ByTimer;
    BatchWakes(st, batch);
    HarvestSafe(st, batch);
    TurnAnswers(Harvest(st, batch).value, ops, k);
  }
}
