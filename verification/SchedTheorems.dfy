// What the invariant says to a reader: one place and one wake source for every task, one
// outcome for every deadline and every select, and what is gone after a join.
module SchedTheorems {
  import opened Common
  import opened SchedState
  import opened SchedSteps
  import opened SchedMachine
  import opened SchedInvariant
  import opened SchedLife
  import opened SchedJoin
  import opened SchedPollOps
  import opened SchedDrop
  import opened SchedScopeOps
  import opened SchedDeadline
  import opened SchedEnd
  import opened SchedChanOps
  import opened SchedRuns

  ghost predicate Reachable(st: State) {
    exists ops :: Legal(Init, ops) && Run(Init, ops) == Next(st)
  }

  lemma ReachableInv(st: State)
    requires Reachable(st)
    ensures Inv(st)
  {
    hide Inv, Run, Legal;
    var ops :| Legal(Init, ops) && Run(Init, ops) == Next(st);
    EveryRunSafe(ops);
  }

  // ---- Where a task is ----

  // On a send, receive or select queue.
  ghost predicate OnChannel(st: State, t: TaskId) {
    exists ch :: ch in st.chans &&
      (t in st.chans[ch].sendq || t in st.chans[ch].recvq
       || exists w :: w in st.chans[ch].selq && w.task == t)
  }

  // Waiting for a task or for a scope, and for nothing else.
  ghost predicate OnLink(st: State, t: TaskId) {
    && t in st.tasks
    && ((st.tasks[t].frame.InAwait? && exists u :: u in st.tasks && st.tasks[u].awaiter == Some(t))
        || (exists s :: s in st.scopes && st.scopes[s].waiter == Some(t)))
  }

  function One(b: bool): nat { if b then 1 else 0 }

  ghost function Places(st: State, t: TaskId): nat {
    One(st.cur == Some(t)) + One(t in st.rq) + One(t in st.io) + One(OnChannel(st, t))
    + One(OnLink(st, t))
  }

  lemma OnChannelIff(st: State, t: TaskId)
    requires ChansOk(st, {}) && Alive(st, t)
    requires st.tasks[t].park.OnSelect? ==> st.tasks[t].regs != []
    ensures OnChannel(st, t) <==> st.tasks[t].park.OnChan? || st.tasks[t].park.OnSelect?
  {
    assert ParkTargetOk(st, t);
    if st.tasks[t].park.OnChan? {
      assert ChanOk(st, st.tasks[t].park.chan, {});
    } else if st.tasks[t].park.OnSelect? {
      var ch := st.tasks[t].regs[0];
      assert ChanOk(st, ch, {});
      assert SelReg(t, 0) in st.chans[ch].selq;
    } else if OnChannel(st, t) {
      OnChannelParked(st, t);
    }
  }

  lemma OnChannelParked(st: State, t: TaskId)
    requires ChansOk(st, {}) && OnChannel(st, t)
    ensures Alive(st, t) && (st.tasks[t].park.OnChan? || st.tasks[t].park.OnSelect?)
  {
    var ch :| ch in st.chans &&
      (t in st.chans[ch].sendq || t in st.chans[ch].recvq
       || exists w :: w in st.chans[ch].selq && w.task == t);
    assert ChanOk(st, ch, {});
  }

  lemma OnLinkIff(st: State, t: TaskId)
    requires Core(st, {}) && Alive(st, t)
    ensures OnLink(st, t) <==> !Woken(st, t) && (st.tasks[t].frame.InAwait? || st.tasks[t].frame.InJoin?)
    ensures OnLink(st, t) ==> Waiting(st, t)
  {
    hide ScopesOk, IdsOk, PollerOk, QueuesOk, PlacesOk, Context;
    assert FrameOk(st, t);
  }

  // A live task is in exactly one place: running, ready, on the poller's list, on channel
  // queues, or waiting on a link.
  lemma ExactlyOnePlace(st: State, t: TaskId)
    requires Inv(st) && Alive(st, t)
    ensures Places(st, t) == 1
    ensures NoDup(st.rq) && NoDup(st.io)
  {
    hide Core, ChansOk, ClosedOk, Context, OnChannel, OnLink;
    TaskFacts(st, t);
    QueueFacts(st, t);
    hide NestOk;
    OnChannelIff(st, t);
    OnLinkIff(st, t);
  }

  lemma QueueFacts(st: State, t: TaskId)
    requires Core(st, {}) && t in st.tasks
    ensures (t in st.rq <==> st.tasks[t].inRq) && (t in st.io <==> st.tasks[t].onIo)
    ensures NoDup(st.rq) && NoDup(st.io)
  {
    hide ScopesOk, IdsOk, PollerOk, LinksOk, PlacesOk, FramesOk;
  }

  // The pump gives up exactly when every task that has not ended waits for another: on a channel,
  // for a task or for a scope.
  lemma DeadlockStops(st: State)
    requires Inv(st) && st.cur == None
    ensures (Enabled(st, Pump) && Exec(st, Pump).Abort?) <==> st.rq == [] && st.io == []
    ensures st.rq == [] && st.io == [] <==>
            forall t {:trigger OnChannel(st, t)} :: Alive(st, t) ==> OnChannel(st, t) || OnLink(st, t)
  {
    hide Core, ChansOk, ClosedOk, OnChannel, OnLink;
    forall t | Alive(st, t) ensures Places(st, t) == 1 {
      ExactlyOnePlace(st, t);
    }
    if st.rq != [] {
      QueuedAlive(st, st.rq[0]);
      assert Places(st, st.rq[0]) == 1;
    } else if st.io != [] {
      QueuedAlive(st, st.io[0]);
      assert Places(st, st.io[0]) == 1;
    } else {
      forall t | Alive(st, t) ensures OnChannel(st, t) || OnLink(st, t) {
        assert Places(st, t) == 1;
      }
    }
  }

  lemma QueuedAlive(st: State, t: TaskId)
    requires Core(st, {}) && (t in st.rq || t in st.io)
    ensures Alive(st, t)
  {
    hide ScopesOk, IdsOk, PollerOk, LinksOk, FramesOk;
    assert PlaceOk(st, t, {});
  }

  // A finished or dropped record is nowhere.
  lemma EndedNowhere(st: State, t: TaskId)
    requires Inv(st) && t in st.tasks && !Alive(st, t)
    ensures Places(st, t) == 0 && NoRefs(st, t)
  {
    hide Core, ChansOk, ClosedOk, Context, OnChannel;
    TaskFacts(st, t);
    QueueFacts(st, t);
    hide NestOk;
    EndedRefs(st, t);
    if OnChannel(st, t) {
      OnChannelParked(st, t);
    }
  }

  lemma EndedRefs(st: State, t: TaskId)
    requires Core(st, {}) && t in st.tasks && !Alive(st, t)
    ensures NoRefs(st, t)
  {
    hide ScopesOk, IdsOk, QueuesOk, PlacesOk, FramesOk;
  }

  // ---- What can wake it ----

  ghost function TimersOf(st: State, t: TaskId): set<TimerId> {
    set tid | tid in st.timers && st.timers[tid] == t
  }

  ghost function FdsOf(st: State, t: TaskId): set<int> {
    set fd | fd in st.fds && st.fds[fd] == t
  }

  ghost function AwaitedBy(st: State, t: TaskId): set<TaskId> {
    set u | u in st.tasks && st.tasks[u].awaiter == Some(t)
  }

  ghost function JoinedBy(st: State, t: TaskId): set<ScopeId> {
    set s | s in st.scopes && st.scopes[s].waiter == Some(t)
  }

  // Every suspended task has one pending wake source; a bounded read and a deadline have two,
  // and never a third.
  lemma WakeSources(st: State, t: TaskId)
    requires Inv(st) && Alive(st, t) && !Woken(st, t)
    ensures var fds, timers := FdsOf(st, t), TimersOf(st, t);
      var awaits, joins := AwaitedBy(st, t), JoinedBy(st, t);
      match st.tasks[t].frame
      case InFd(fd) => fds == {fd} && timers == {} && awaits == {} && joins == {} && !OnChannel(st, t)
      case InFdTimed(fd, tid) =>
        fds == {fd} && timers == {tid} && awaits == {} && joins == {} && !OnChannel(st, t)
      case InSleep =>
        fds == {} && timers == {st.tasks[t].timer} && awaits == {} && joins == {} && !OnChannel(st, t)
      case InDeadline(_, u) =>
        fds == {} && timers == {st.tasks[t].timer} && awaits == {u} && joins == {}
        && !OnChannel(st, t)
      case InAwait(u) => fds == {} && timers == {} && awaits == {u} && joins == {} && !OnChannel(st, t)
      case InJoin(s) => fds == {} && timers == {} && awaits == {} && joins == {s} && !OnChannel(st, t)
      case _ => fds == {} && timers == {} && awaits == {} && joins == {} && OnChannel(st, t)
  {
    hide Core, ChansOk, ClosedOk, Context, OnChannel;
    TaskFacts(st, t);
    hide NestOk;
    OnChannelIff(st, t);
    PollSources(st, t);
    LinkSources(st, t);
  }

  lemma PollSources(st: State, t: TaskId)
    requires Core(st, {}) && Alive(st, t)
    ensures var f := st.tasks[t].frame;
      && TimersOf(st, t) <= (if f.InFdTimed? || f.InSleep? || f.InDeadline?
                             then {st.tasks[t].timer} else {})
      && FdsOf(st, t) <= (if f.InFd? || f.InFdTimed? then {f.fd} else {})
  {
    hide ScopesOk, IdsOk, QueuesOk, LinksOk, PlacesOk, FramesOk;
    var f := st.tasks[t].frame;
    forall fd | fd in FdsOf(st, t) ensures (f.InFd? || f.InFdTimed?) && f.fd == fd {
      assert f == InFd(fd) || (f.InFdTimed? && f.fd == fd);
    }
  }

  lemma LinkSources(st: State, t: TaskId)
    requires Core(st, {}) && Alive(st, t)
    ensures AwaitedBy(st, t) <= match st.tasks[t].frame
                                case InAwait(u) => {u}
                                case InDeadline(_, u) => {u}
                                case _ => {}
    ensures JoinedBy(st, t) <= match st.tasks[t].frame case InJoin(s) => {s} case _ => {}
  {
    hide ScopesOk, IdsOk, QueuesOk, PollerOk, PlacesOk, FramesOk;
  }

  // ---- Deadlines ----

  // A child that has ended, and one that a drop can take: suspended in the poller, on a channel or
  // in a select, and no deadline owner itself.
  predicate Decided(st: State, u: TaskId)
    requires u in st.tasks
  {
    st.tasks[u].done || (Droppable(st, u) && st.tasks[u].deadlineChild == None)
  }

  // A woken __await_deadline returns exactly if its child has ended or can be dropped, steps
  // behind the child exactly if that is ready, and is refused otherwise. It returns true exactly
  // if the child is done, and false only after the timer fired, with the child dropped. Either way
  // its owner runs, is on no queue, is nobody's awaiter and has no timer armed.
  lemma DeadlineReturns(st: State, t: TaskId, s: ScopeId, u: TaskId)
    requires DeadlineResumes(st, t, s, u) && CallerOk(st, t, Continue)
    ensures u in st.tasks && (Decided(st, u) ==> u !in st.rq)
    ensures Resume(st, t).Next? <==> Decided(st, u) || u in st.rq
    ensures Resume(st, t).Abort? <==> !Decided(st, u) && u !in st.rq
    ensures Decided(st, u) ==>
              var st' := Resume(st, t).value;
              && Ready(st', t) && Places(st', t) == 1 && NoRefs(st', t) && TimersOf(st', t) == {}
              && u in st'.tasks && st'.tasks[u].awaiter == None
              && st'.tasks[t].ret == Flag(st.tasks[u].done)
              && (!st.tasks[u].done ==>
                    st.tasks[t].expired && st'.tasks[u].dropped && s in st'.scopes
                    && st'.scopes[s].reason == TimedOut)
              && DeadlineTouches(st, st', t, s, u)
  {
    hide Inv, CallerOk, Resume, Branch, Places, FrameOk, PlaceOk, Decided, DeadlineTouches, NoRefs;
    hide TimersOf, FdsOf;
    DeadlineCalls(st, t, s, u);
    ReopenedReady(st, t, s, u);
    ReopenedSame(st, t, s, u);
    var b := Reopened(st, t, u);
    hide Reopened;
    InvReady(st, u);
    BranchReturns(b, t, s, u);
    if Decided(st, u) {
      var st' := Resume(st, t).value;
      RunningPlace(st', t);
      ReopenedTouches(st, b, st', t, s, u);
    }
  }

  lemma InvReady(st: State, u: TaskId)
    requires Inv(st) && u in st.tasks
    ensures u in st.rq <==> st.tasks[u].inRq
    ensures Decided(st, u) ==> u !in st.rq
  {
    hide Core, ChansOk, ClosedOk;
    ReadyNotDone(st, u);
  }

  lemma ReopenedSame(st: State, t: TaskId, s: ScopeId, u: TaskId)
    requires t in st.tasks && u in st.tasks && u != t
    requires DeadlineLink(st, t, s, u) && (Droppable(st, u) ==> NoOpenScope(st, u))
    requires st.tasks[t].timerDead && (st.tasks[u].done || st.tasks[t].expired)
    ensures var b := Reopened(st, t, u);
      && DeadlineLink(b, t, s, u) && (Droppable(b, u) ==> NoOpenScope(b, u))
      && (Decided(b, u) <==> Decided(st, u)) && b.tasks[u].inRq == st.tasks[u].inRq
      && b.tasks[u].awaiter == None && b.tasks[u].done == st.tasks[u].done
      && b.tasks[t].timerDead && (b.tasks[u].done || b.tasks[t].expired)
  {
  }

  lemma ReopenedTouches(st: State, b: State, st': State, t: TaskId, s: ScopeId, u: TaskId)
    requires t in st.tasks && u in st.tasks && u != t && b == Reopened(st, t, u)
    requires DeadlineTouches(b, st', t, s, u)
    ensures DeadlineTouches(st, st', t, s, u)
  {
    UnregisteredFrom(st, b, st', u);
    hide Unregistered;
    assert OthersSame(st.tasks, b.tasks, t, u);
    hide OthersSame;
    OthersTwice(st.tasks, b.tasks, st'.tasks, t, u);
  }

  // What the return of a deadline leaves alone: all but its own record and the child's, and for a
  // child that is dropped its registrations and the scope's count and mark.
  ghost predicate DeadlineTouches(st: State, st': State, t: TaskId, s: ScopeId, u: TaskId) {
    && u in st.tasks && s in st.scopes && OthersSame(st.tasks, st'.tasks, t, u)
    && st'.rq == st.rq && st'.cur == st.cur
    && (if st.tasks[u].done then
          && st'.tasks[u] == st.tasks[u].(awaiter := None)
          && st'.scopes == st.scopes && st'.chans == st.chans && SameQueues(st, st')
        else
          && Unregistered(st, st', u)
          && st'.scopes == st.scopes[s := st.scopes[s].(reason := TimedOut,
                                                        live := st.scopes[s].live - 1)])
  }

  ghost predicate OthersSame(tasks: map<TaskId, Task>, tasks': map<TaskId, Task>, t: TaskId,
                             u: TaskId) {
    && tasks'.Keys == tasks.Keys
    && forall v :: v in tasks && v != t && v != u ==> tasks'[v] == tasks[v]
  }

  lemma OthersTwice(a: map<TaskId, Task>, b: map<TaskId, Task>, c: map<TaskId, Task>, t: TaskId,
                    u: TaskId)
    requires OthersSame(a, b, t, u) && OthersSame(b, c, t, u)
    ensures OthersSame(a, c, t, u)
  {
  }

  // The registrations of u are gone and all others stay, in their order.
  ghost predicate Unregistered(st: State, st': State, u: TaskId) {
    PollerLess(st, st', {u}) && ChansLess(st, st', {u}) && st'.io == Without(st.io, {u})
  }

  lemma UnregisteredFrom(st: State, b: State, st': State, u: TaskId)
    requires b.timers == st.timers && b.fds == st.fds && b.chans == st.chans && b.io == st.io
    ensures Unregistered(b, st', u) <==> Unregistered(st, st', u)
  {
  }

  // The classification, from the state with the owner back in its own code.
  lemma DeadlineCalls(st: State, t: TaskId, s: ScopeId, u: TaskId)
    requires DeadlineResumes(st, t, s, u) && CallerOk(st, t, Continue)
    ensures u in st.tasks && s in st.scopes && u != t && Ready(Reopened(st, t, u), t)
    ensures Resume(st, t) == Branch(Reopened(st, t, u), t, s, u)
    ensures Droppable(st, u) ==> NoOpenScope(st, u)
  {
    hide Inv, Resume, Branch;
    ResumeDeadlineSafe(st, t, s, u);
    ReopenedReady(st, t, s, u);
  }

  lemma ReadyNotDone(st: State, u: TaskId)
    requires Core(st, {}) && u in st.tasks
    ensures u in st.rq <==> st.tasks[u].inRq
    ensures u in st.rq ==> !st.tasks[u].done && !Droppable(st, u)
  {
    hide ScopesOk, IdsOk, PollerOk, LinksOk, FramesOk;
    assert PlaceOk(st, u, {});
  }

  lemma RunningPlace(st: State, t: TaskId)
    requires Ready(st, t)
    ensures NoRefs(st, t) && TimersOf(st, t) == {} && FdsOf(st, t) == {} && Places(st, t) == 1
  {
    hide Core, ChansOk, ClosedOk, FrameOk, OnChannel;
    RunningFacts(st, t);
    NothingHeld(st, t);
    hide NoRefs, TimersOf, FdsOf;
    if OnChannel(st, t) {
      OnChannelParked(st, t);
    }
    assert !OnLink(st, t) by {
      NotLinked(st, t);
    }
  }

  lemma NothingHeld(st: State, t: TaskId)
    requires NoRefs(st, t)
    ensures TimersOf(st, t) == {} && FdsOf(st, t) == {}
  {
    forall tid ensures tid !in TimersOf(st, t) {
    }
    forall fd ensures fd !in FdsOf(st, t) {
    }
  }

  lemma NotLinked(st: State, t: TaskId)
    requires NoRefs(st, t)
    ensures !OnLink(st, t)
  {
  }

  lemma BranchReturns(b: State, t: TaskId, s: ScopeId, u: TaskId)
    requires Ready(b, t) && u in b.tasks && b.tasks[u].awaiter == None && u != t
    requires DeadlineLink(b, t, s, u) && b.tasks[t].timerDead
    requires b.tasks[u].done || b.tasks[t].expired
    requires Droppable(b, u) ==> NoOpenScope(b, u)
    ensures !Branch(b, t, s, u).Fault?
    ensures Branch(b, t, s, u).Next? <==> Decided(b, u) || b.tasks[u].inRq
    ensures Decided(b, u) ==>
              var st' := Branch(b, t, s, u).value;
              && Ready(st', t) && u in st'.tasks && st'.tasks[u].awaiter == None
              && st'.tasks[t].ret == Flag(b.tasks[u].done)
              && (!b.tasks[u].done ==>
                    st'.tasks[u].dropped && s in st'.scopes && st'.scopes[s].reason == TimedOut)
              && DeadlineTouches(b, st', t, s, u)
  {
    hide Core, ChansOk, ClosedOk, ForceDrop, ChansLess, PollerLess, FrameOk;
    hide DeadlineTouches;
    BranchSafe(b, t, s, u);
    ReadyNotDone(b, u);
    if b.tasks[u].done {
      DoneTouches(b, Branch(b, t, s, u).value, t, s, u);
    } else if Droppable(b, u) {
      MarkedInv(b, s, TimedOut);
      var b' := Marked(b, s, TimedOut);
      ForceDropSafe(b', u, s, t);
      if ForceDrop(b', u, t).Next? {
        DroppedAwaiter(Branch(b, t, s, u).value, u);
        DropTouches(b, ForceDrop(b', u, t).value, Branch(b, t, s, u).value, t, s, u);
      }
    }
  }

  lemma DoneTouches(b: State, st': State, t: TaskId, s: ScopeId, u: TaskId)
    requires t in b.tasks && u in b.tasks && u != t && s in b.scopes
    requires b.tasks[u].done && b.tasks[u].awaiter == None && Returned(b, st', t, Flag(true))
    ensures DeadlineTouches(b, st', t, s, u)
  {
  }

  lemma DropTouches(b: State, st2: State, st': State, t: TaskId, s: ScopeId, u: TaskId)
    requires t in b.tasks && u in b.tasks && u != t && s in b.scopes
    requires !b.tasks[u].done && b.tasks[u].awaitable
    requires DropEffect(Marked(b, s, TimedOut), st2, u, s) && Returned(st2, st', t, Flag(false))
    ensures DeadlineTouches(b, st', t, s, u)
  {
    UnregisteredFrom(b, Marked(b, s, TimedOut), st2, u);
    assert Unregistered(Marked(b, s, TimedOut), st2, u);
    UnregisteredTo(b, st2, st', u);
    hide Unregistered;
    assert st'.scopes[s] == b.scopes[s].(reason := TimedOut, live := b.scopes[s].live - 1);
  }

  lemma UnregisteredTo(st: State, st2: State, st': State, u: TaskId)
    requires st'.timers == st2.timers && st'.fds == st2.fds && st'.chans == st2.chans
    requires st'.io == st2.io && Unregistered(st, st2, u)
    ensures Unregistered(st, st', u)
  {
  }

  lemma DroppedAwaiter(st: State, u: TaskId)
    requires Core(st, {}) && u in st.tasks && st.tasks[u].dropped
    ensures st.tasks[u].awaiter == None
  {
    hide Core, NestOk, FrameOk;
    TaskFacts(st, u);
  }

  // With the child ready the owner steps behind it in the ready queue, to classify again.
  lemma DeadlineYields(st: State, t: TaskId, s: ScopeId, u: TaskId)
    requires DeadlineResumes(st, t, s, u) && CallerOk(st, t, Continue) && u in st.rq
    ensures u in st.tasks && !st.tasks[u].done && Resume(st, t).Next?
    ensures var st' := Resume(st, t).value;
      && st'.rq == st.rq + [t] && st'.cur == None
      && t in st'.tasks && st'.tasks[t].frame == InDeadlineYield(s, u)
      && u in st'.tasks && st'.tasks[u].awaiter == None
      && (forall v :: v in st.tasks && v != t && v != u ==>
            v in st'.tasks && st'.tasks[v] == st.tasks[v])
      && st'.io == st.io && st'.fds == st.fds && st'.timers == st.timers
      && st'.scopes == st.scopes && st'.chans == st.chans
  {
    hide Core, ChansOk, ClosedOk, CallerOk, Resume, FrameOk, NoOpenScope;
    DeadlineCalls(st, t, s, u);
    ReadyNotDone(st, u);
  }

  // ---- Selects ----

  // A select that fires gets one outcome, from the channel its index names, and is off every
  // channel, whatever channels it named and however often.
  ghost predicate FiredOnce(st: State, st': State, ch: ChanId) {
    && ch in st.chans && st.chans[ch].selq != []
    && var w := st.chans[ch].selq[0];
    && w.task in st.tasks && w.task in st'.tasks
    && w.index < |st.tasks[w.task].regs| && st.tasks[w.task].regs[w.index] == ch
    && st'.tasks[w.task].fired == w.index && st'.tasks[w.task].regs == []
    && st'.tasks[w.task].inRq && st'.rq == st.rq + [w.task] && w.task !in st.rq
    && (forall ch' :: ch' in st'.chans ==> forall v :: v in st'.chans[ch'].selq ==> v.task != w.task)
    && (forall ch', v :: ch' in st.chans && v in st.chans[ch'].selq && v.task != w.task ==>
          ch' in st'.chans && v in st'.chans[ch'].selq)
  }

  lemma SelectFires(st: State, st1: State, ch: ChanId)
    requires Inv(st) && ch in st.chans && st.chans[ch].selq != []
    requires Primed(st, st1, st.chans[ch].selq[0].task, ch)
    requires var x := st1.tasks[st.chans[ch].selq[0].task]; x.closedWake <==> x.pending == None
    ensures var w := st.chans[ch].selq[0];
      SelectFire(st1, w.task, w.index).Next?
      && FiredOnce(st, SelectFire(st1, w.task, w.index).value, ch)
  {
    hide Core, ChansOk, ClosedOk, SelectFire, FrameOk, NoRefs, ChanLess;
    var w := st.chans[ch].selq[0];
    SelHead(st, ch);
    ParkedOnChan(st, w.task);
    SelectWoken(st, st1, ch);
    var st' := SelectFire(st1, w.task, w.index).value;
    forall ch' | ch' in st.chans
      ensures forall v :: v in st'.chans[ch'].selq ==> v.task != w.task
      ensures forall v :: v in st.chans[ch'].selq && v.task != w.task ==> v in st'.chans[ch'].selq
    {
      SelWithoutIff(st1, st', ch', w.task);
    }
  }

  lemma SelWithoutIff(st1: State, st': State, ch: ChanId, t: TaskId)
    requires ChansLess(st1, st', {t}) && ch in st1.chans
    ensures ch in st'.chans
    ensures forall v: SelReg :: v in st'.chans[ch].selq <==> v in st1.chans[ch].selq && v.task != t
  {
    assert ChanLess(st1.chans[ch], st'.chans[ch], {t});
    SelWithoutMembers(st1.chans[ch].selq, {t});
  }

  lemma {:induction false} SelWithoutMembers(q: seq<SelReg>, d: set<TaskId>)
    ensures forall v: SelReg :: v in SelWithout(q, d) <==> v in q && v.task !in d
  {
    if q != [] {
      SelWithoutMembers(q[1..], d);
      assert forall v :: v in q <==> v == q[0] || v in q[1..];
    }
  }

  ghost predicate SentToSelect(st: State, st': State, t: TaskId, ch: ChanId, v: int)
    requires ch in st.chans && st.chans[ch].selq != []
  {
    var w := st.chans[ch].selq[0].task;
    && FiredOnce(st, st', ch) && Answered(st, st', t, Unit, {w})
    && ChansLess(Handed(st, ch, v), st', {w})
    && (var y := st'.tasks[w];
        y.pending == Some(Msg(|st.chans[ch].log|, v)) && !y.closedWake && y.frame.InSelect?)
  }

  // A sent value goes to one select, once, and is its outcome.
  lemma SelectReceives(st: State, t: TaskId, ch: ChanId, v: int)
    requires Ready(st, t)
    requires ch in st.chans && !st.chans[ch].closed
    requires st.chans[ch].recvq == [] && st.chans[ch].selq != []
    ensures Send(st, t, ch, v).Next?
    ensures SentToSelect(st, Send(st, t, ch, v).value, t, ch, v)
  {
    hide Core, ChansOk, ClosedOk, SelectFire, FrameOk, NoRefs, ChansLess, Answered;
    var w := st.chans[ch].selq[0];
    SelHead(st, ch);
    ParkedOnChan(st, w.task);
    StillRunning(st, t, w.task);
    var x := st.tasks[w.task].(pending := Some(Msg(|st.chans[ch].log|, v)), closedWake := false);
    var st1 := Put(Handed(st, ch, v), w.task, x);
    SelectWoken(st, st1, ch);
    SelectFires(st, st1, ch);
    SelectAnswered(st, t, ch, v);
  }

  // The value is counted as sent and handed out.
  function Handed(st: State, ch: ChanId, v: int): State
    requires ch in st.chans
  {
    var c := st.chans[ch];
    PutChan(st, ch, c.(log := c.log + [v], delivered := c.delivered + [Msg(|c.log|, v)]))
  }

  lemma SelectAnswered(st: State, t: TaskId, ch: ChanId, v: int)
    requires Ready(st, t)
    requires ch in st.chans && !st.chans[ch].closed
    requires st.chans[ch].recvq == [] && st.chans[ch].selq != []
    ensures Send(st, t, ch, v).Next?
    ensures var st', w := Send(st, t, ch, v).value, st.chans[ch].selq[0].task;
      Answered(st, st', t, Unit, {w}) && ChansLess(Handed(st, ch, v), st', {w})
  {
    hide Core, ChansOk, ClosedOk, SelectFire, FrameOk, NoRefs, ChanLess;
    var w := st.chans[ch].selq[0];
    SelHead(st, ch);
    ParkedOnChan(st, w.task);
    StillRunning(st, t, w.task);
    var x := st.tasks[w.task].(pending := Some(Msg(|st.chans[ch].log|, v)), closedWake := false);
    SelectWoken(st, Put(Handed(st, ch, v), w.task, x), ch);
  }

  // ---- Joins ----

  // A join of a scope with live tasks parks on that scope and on nothing else.
  lemma JoinParks(st: State, t: TaskId, s: ScopeId)
    requires Ready(st, t) && JoinsInnermost(st, t, s) && s in st.scopes && st.scopes[s].live > 0
    ensures Join(st, t, s).Next?
    ensures var st' := Join(st, t, s).value;
      && JoinParked(st, st', t, s) && JoinedBy(st', t) == {s} && AwaitedBy(st', t) == {}
      && t !in st'.rq && t !in st'.io && !OnChannel(st', t) && Places(st', t) == 1
  {
    hide Core, ChansOk, ClosedOk, Join, OnChannel, OnLink, FrameOk, NoRefs;
    RunningFacts(st, t);
    JoinSafe(st, t, s);
    var st' := Join(st, t, s).value;
    hide AwaitedBy, JoinedBy;
    WakeSources(st', t);
    ExactlyOnePlace(st', t);
    assert st'.scopes[s].waiter == Some(t);
  }

  // What the owner of s runs when it joins s with nothing live, or when it resumes from its park.
  function JoinCall(st: State, t: TaskId, s: ScopeId): Out
    requires t in st.tasks
  {
    if st.tasks[t].frame.Running? then Join(st, t, s) else Resume(st, t)
  }

  // Then every task of its scope has ended. The join is refused exactly when a task is parked on a
  // channel of the scope, and otherwise returns and frees exactly the scope, its forks and its
  // channels; nobody who is left is parked on one of those.
  lemma JoinReturns(st: State, t: TaskId, s: ScopeId)
    requires Inv(st) && st.cur == Some(t) && t in st.tasks
    requires st.tasks[t].frame == InJoin(s) || (Ready(st, t) && JoinsInnermost(st, t, s))
    requires s in st.scopes && (st.tasks[t].frame.Running? ==> st.scopes[s].live <= 0)
    ensures forall u :: u in st.tasks && st.tasks[u].scope == Some(s) ==>
              st.tasks[u].done || st.tasks[u].dropped
    ensures JoinCall(st, t, s).Next? <==> NobodyParked(st, s)
    ensures NobodyParked(st, s) ==>
              var st' := JoinCall(st, t, s).value;
              && Ready(st', t) && JoinEffect(st, st', t, s)
              && st'.scopes.Keys == st.scopes.Keys - {s}
              && (forall u :: u in st'.tasks <==> u in st.tasks && st.tasks[u].scope != Some(s))
              && (forall ch :: ch in st'.chans <==> ch in st.chans && st.chans[ch].scope != s)
              && (forall u :: u in st'.tasks && Alive(st', u) ==> ParkTargetOk(st', u))
    ensures !NobodyParked(st, s) ==> JoinCall(st, t, s).Abort?
  {
    hide Core, ClosedOk, Join, JoinTail, ScopeOk, JoinReady, ChansOk, JoinEffect, FrameOk;
    JoinStarts(st, t, s);
    JoinTailSafe(st, t, s);
    JoinCallIs(st, t, s);
    hide JoinCall;
    forall u | u in st.tasks
      ensures st.tasks[u].scope == Some(s) <==> u in st.scopes[s].forks
      ensures st.tasks[u].scope == Some(s) ==> st.tasks[u].done || st.tasks[u].dropped
    {
      JoinTask(st, t, s, u);
    }
    if JoinTail(st, t, s).Next? {
      JoinLeaves(st, JoinTail(st, t, s).value, t, s);
    }
  }

  lemma JoinCallIs(st: State, t: TaskId, s: ScopeId)
    requires t in st.tasks && s in st.scopes
    requires st.tasks[t].frame == InJoin(s) || (st.tasks[t].frame.Running? && st.scopes[s].live <= 0)
    ensures JoinCall(st, t, s) == JoinTail(st, t, s)
  {
    hide JoinTail;
  }

  lemma JoinStarts(st: State, t: TaskId, s: ScopeId)
    requires Inv(st) && st.cur == Some(t) && t in st.tasks
    requires st.tasks[t].frame == InJoin(s) || (Ready(st, t) && JoinsInnermost(st, t, s))
    requires s in st.scopes && (st.tasks[t].frame.Running? ==> st.scopes[s].live <= 0)
    ensures JoinReady(st, t, s)
  {
    hide Core, ChansOk, ClosedOk, JoinTail, JoinReady, JoinEffect;
    if st.tasks[t].frame == InJoin(s) {
      ResumeJoinSafe(st, t, s);
    } else {
      JoinIsReady(st, t, s);
    }
  }

  lemma JoinTask(st: State, t: TaskId, s: ScopeId, u: TaskId)
    requires Inv(st) && JoinReady(st, t, s) && u in st.tasks
    ensures st.tasks[u].scope == Some(s) <==> u in st.scopes[s].forks
    ensures st.tasks[u].scope == Some(s) ==> st.tasks[u].done || st.tasks[u].dropped
  {
    hide ChansOk, ClosedOk, QueuesOk, FramesOk, LinksOk, PollerOk, IdsOk, ScopesOk, JoinReady;
    JoinTasks(st, t, s, u);
  }

  lemma JoinLeaves(st: State, st': State, t: TaskId, s: ScopeId)
    requires Inv(st') && JoinEffect(st, st', t, s) && st.cur == Some(t)
    ensures st'.scopes.Keys == st.scopes.Keys - {s}
    ensures forall u :: u in st'.tasks <==> u in st.tasks && u !in st.scopes[s].forks
    ensures forall ch :: ch in st'.chans <==> ch in st.chans && st.chans[ch].scope != s
    ensures forall u :: u in st'.tasks && Alive(st', u) ==> ParkTargetOk(st', u)
    ensures Ready(st', t)
  {
    hide Core, ClosedOk, JoinReady, ParkTargetOk, ChanOk;
  }

  // ---- Counts and bounds ----

  // An armed timer is the one its task's record names, is not marked as torn down, and the
  // task is still inside the call that armed it.
  lemma ArmedTimer(st: State, tid: TimerId)
    requires Inv(st) && tid in st.timers
    ensures Alive(st, st.timers[tid])
    ensures var x := st.tasks[st.timers[tid]];
      && x.timer == tid && !x.timerDead
      && (x.frame.InFdTimed? || x.frame.InSleep? || x.frame.InDeadline?)
      && TimersOf(st, st.timers[tid]) == {tid}
  {
    hide ScopesOk, IdsOk, QueuesOk, PlacesOk, FramesOk, LinksOk, ChansOk, ClosedOk;
  }

  // live is the number of the scope's tasks that are neither done nor dropped; the fork list
  // is the scope's awaitable tasks, each once.
  lemma LiveCounts(st: State, s: ScopeId)
    requires Inv(st) && s in st.scopes
    ensures st.scopes[s].live == |LiveSet(st.tasks, s)|
    ensures NoDup(st.scopes[s].forks)
    ensures forall f :: f in st.scopes[s].forks <==>
              f in st.tasks && st.tasks[f].scope == Some(s) && st.tasks[f].awaitable
  {
    hide IdsOk, QueuesOk, PlacesOk, FramesOk, LinksOk, PollerOk, ChansOk, ClosedOk;
    assert ScopeOk(st.tasks, st.scopes, s);
  }

  // What the counts and queues of a channel can be.
  lemma ChannelStates(st: State, ch: ChanId)
    requires Inv(st) && ch in st.chans
    ensures var c := st.chans[ch];
      && |c.buf| <= c.cap
      && (c.sendq != [] ==> |c.buf| == c.cap && c.recvq == [] && c.selq == [])
      && (c.recvq != [] || c.selq != [] ==> c.buf == [] && c.sendq == [])
      && (c.closed ==> c.sendq == [] && c.recvq == [] && c.selq == [])
      && NoDup(c.sendq) && NoDup(c.recvq) && NoDup(c.selq)
  {
    hide Core;
    assert ChanOk(st, ch, {});
  }
}
