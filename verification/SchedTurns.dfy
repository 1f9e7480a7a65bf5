// The ready queue is fair to ready tasks: whatever else happens, a task that is ready runs after
// exactly as many turns of the pump as there were tasks ahead of it, plus its own; until then no
// other task changes what it was told. A quiet step also leaves the channels as they are.
module SchedTurns {
  import opened Common
  import opened SchedState
  import opened SchedSteps
  import opened SchedMachine
  import opened SchedInvariant
  import opened SchedDrop
  import opened SchedScopeOps
  import opened SchedDeadline
  import opened SchedCancel
  import opened SchedRuns
  import opened SchedClosing

  // The same record but for links and registrations: what a task will find when it runs, how it
  // ended, and where it belongs.
  predicate Carries(x: Task, y: Task) {
    && y.frame == x.frame && y.timer == x.timer && y.wokeByTimer == x.wokeByTimer
    && y.expired == x.expired && y.pending == x.pending && y.closedWake == x.closedWake
    && y.fired == x.fired && y.ret == x.ret && y.deadlineChild == x.deadlineChild
    && y.done == x.done && y.dropped == x.dropped && y.result == x.result
    && y.scope == x.scope && y.awaitable == x.awaitable && y.nest == x.nest
  }

  // The result of a task that has ended stays.
  predicate Ends(x: Task, y: Task) {
    x.done ==> y.done && y.result == x.result
  }

  // Made ready, or dropped.
  ghost predicate Moved(st: State, st': State, u: TaskId)
    requires u in st.tasks && u in st'.tasks
  {
    u !in st.rq && (u in st'.rq || st'.tasks[u].dropped) && Ends(st.tasks[u], st'.tasks[u])
  }

  // Scopes that stay keep their owners and forks, and an id is not used again.
  ghost predicate ScopesKept(st: State, st': State) {
    && st.next <= st'.next
    && (forall s :: s in st'.scopes ==> s in st.scopes || s >= st.next)
    && (forall s :: s in st.scopes && s in st'.scopes && s < st.next ==>
          st'.scopes[s].owner == st.scopes[s].owner && st'.scopes[s].forks == st.scopes[s].forks)
  }

  lemma SameScopes(st: State, st': State)
    requires st'.scopes == st.scopes && st'.next >= st.next
    ensures ScopesKept(st, st')
  {
  }

  // No channel that stays changes, and no task but those of own changes what it holds.
  ghost predicate Quiet(st: State, st': State, own: set<TaskId>) {
    && (forall ch :: ch in st'.chans ==> ch in st.chans && st'.chans[ch] == st.chans[ch])
    && (forall u :: u in st.tasks && u in st'.tasks && u !in own ==>
          st'.tasks[u].pending == st.tasks[u].pending)
  }

  // The ready queue only grows, at its tail, and a record is left as it was unless its task is of
  // own, or is made ready or dropped.
  ghost predicate Keeps(st: State, st': State, own: set<TaskId>, quiet: bool) {
    && st.rq <= st'.rq
    && st'.tasks.Keys <= st.tasks.Keys
    && (forall u :: u in st'.tasks && u !in own ==>
          Carries(st.tasks[u], st'.tasks[u]) || Moved(st, st', u))
    && ScopesKept(st, st')
    && (quiet ==> Quiet(st, st', own))
  }

  ghost predicate Appends(st: State, o: Out, own: set<TaskId>, quiet: bool) {
    o.Next? ==> Keeps(st, o.value, own, quiet)
  }

  // ---- Changes compose ----

  lemma CarriesSelf(st: State)
    ensures forall u :: u in st.tasks ==> Carries(st.tasks[u], st.tasks[u])
  {
  }

  // What is done to a task that is not ready, before the rest of a step, changes no ready task.
  lemma TouchedKeeps(st: State, st1: State, st2: State, w: TaskId, quiet: bool)
    requires w in st.tasks && w in st1.tasks && st1.tasks == st.tasks[w := st1.tasks[w]]
    requires quiet ==> st1.tasks[w].pending == st.tasks[w].pending && st1.chans == st.chans
    requires st1.rq == st.rq && w !in st.rq && Keeps(st1, st2, {}, quiet) && w in st2.rq
    requires Ends(st.tasks[w], st1.tasks[w])
    requires st1.scopes == st.scopes && st1.next == st.next
    ensures Keeps(st, st2, {}, quiet)
  {
    hide Carries;
    if w in st2.tasks {
      CarriesEnds(st1.tasks[w], st2.tasks[w]);
    }
  }

  lemma CarriesEnds(x: Task, y: Task)
    ensures Carries(x, y) ==> Ends(x, y)
  {
  }

  lemma KeepsTwice(st: State, st1: State, st2: State, own: set<TaskId>, quiet: bool)
    requires Keeps(st, st1, own, quiet) && (Keeps(st1, st2, own, quiet) || Keeps(st1, st2, {}, quiet))
    ensures Keeps(st, st2, own, quiet)
  {
    forall u | u in st2.tasks && u !in own
      ensures Carries(st.tasks[u], st2.tasks[u]) || Moved(st, st2, u)
    {
      assert u in st1.tasks;
      assert Carries(st.tasks[u], st1.tasks[u]) || Moved(st, st1, u);
    }
  }

  // What a task does to its own record is its own affair.
  lemma OwnThen(st: State, st1: State, st2: State, t: TaskId, quiet: bool)
    requires t in st.tasks && t in st1.tasks && st1.tasks == st.tasks[t := st1.tasks[t]]
    requires st1.rq == st.rq && st1.chans == st.chans && st1.scopes == st.scopes && st1.next == st.next
    requires Keeps(st1, st2, {}, quiet) || Keeps(st1, st2, {t}, quiet)
    ensures Keeps(st, st2, {t}, quiet)
  {
    hide Carries;
  }

  lemma OwnLast(st: State, st1: State, st2: State, t: TaskId, quiet: bool)
    requires Keeps(st, st1, {}, quiet) || Keeps(st, st1, {t}, quiet)
    requires t in st1.tasks && t in st2.tasks && st2.tasks == st1.tasks[t := st2.tasks[t]]
    requires st2.rq == st1.rq && (quiet ==> st2.chans == st1.chans)
    requires st2.scopes == st1.scopes && st2.next == st1.next
    ensures Keeps(st, st2, {t}, quiet)
  {
    hide Carries;
  }

  lemma OwnOnly(st: State, st': State, t: TaskId)
    requires t in st.tasks && t in st'.tasks && st'.tasks == st.tasks[t := st'.tasks[t]]
    requires st'.rq == st.rq && ScopesKept(st, st')
    ensures Keeps(st, st', {t}, false) && (st'.chans == st.chans ==> Keeps(st, st', {t}, true))
  {
    hide Carries;
    CarriesSelf(st);
  }

  lemma NothingKept(st: State, st': State, own: set<TaskId>)
    requires st'.rq == st.rq && st'.tasks == st.tasks && st'.chans == st.chans
    requires st'.scopes == st.scopes && st'.next == st.next
    ensures Keeps(st, st', own, true)
  {
  }

  // A push changes the record of the pushed task alone, and that task was not ready.
  lemma PushAppends(st: State, t: TaskId)
    ensures Appends(st, RqPush(st, t), {}, true)
    ensures RqPush(st, t).Next? ==> t !in st.rq && t in RqPush(st, t).value.rq
  {
    hide Carries;
    CarriesSelf(st);
  }

  lemma WakeAppends(st: State, t: TaskId)
    ensures Appends(st, Wake(st, t), {}, true)
    ensures Wake(st, t).Next? ==> t !in st.rq && t in Wake(st, t).value.rq
  {
    hide RqPush, Keeps;
    if t in st.tasks {
      var st1 := Put(st, t, st.tasks[t].(park := NotParked));
      PushAppends(st1, t);
      if RqPush(st1, t).Next? {
        TouchedKeeps(st, st1, RqPush(st1, t).value, t, true);
      }
    }
  }

  // ---- The poller ----

  lemma IoKeeps(st: State, t: TaskId)
    ensures Appends(st, IoRemove(st, t), {}, true)
    ensures t in st.tasks ==> Appends(st, RemoveTimerOnce(st, t, st.tasks[t].timer), {}, true)
  {
    hide Without, Keeps, Carries;
    if t in st.tasks {
      NothingKept(st, st, {});
      UnlistedCarries(st.tasks[t]);
      var x, y := st.tasks[t].(onIo := false), st.tasks[t].(timerDead := true);
      OneKept(st, Put(st, t, x).(io := Without(st.io, {t})), t);
      OneKept(st, Put(st, t, y).(timers := st.timers - {st.tasks[t].timer}), t);
    }
  }

  lemma UnlistedCarries(x: Task)
    ensures Carries(x, x.(onIo := false)) && Carries(x, x.(timerDead := true))
  {
  }

  // A change to one record that leaves what its task was told.
  lemma OneKept(st: State, st': State, t: TaskId)
    requires t in st.tasks && t in st'.tasks && st'.tasks == st.tasks[t := st'.tasks[t]]
    requires st'.rq == st.rq && st'.chans == st.chans && Carries(st.tasks[t], st'.tasks[t])
    requires st'.scopes == st.scopes && st'.next == st.next
    ensures Keeps(st, st', {}, true)
  {
  }

  lemma FromIoAppends(st: State, w: TaskId, byTimer: bool)
    ensures Appends(st, WakeFromIo(st, w, byTimer), {}, true)
  {
    hide Wake, Without, Keeps, RemoveTimerOnce;
    if w in st.tasks && st.tasks[w].onIo {
      var st1 := Put(st, w, st.tasks[w].(wokeByTimer := byTimer, expired := byTimer));
      IoKeeps(st1, w);
      if IoRemove(st1, w).Next? {
        var st2 := IoRemove(st1, w).value;
        WakeAppends(st2, w);
        if Wake(st2, w).Next? {
          KeepsTwice(st1, st2, Wake(st2, w).value, {}, true);
          TouchedKeeps(st, st1, Wake(st2, w).value, w, true);
        }
      }
    } else if w in st.tasks {
      NothingKept(st, st, {});
    }
  }

  lemma {:induction false} HarvestAppends(st: State, batch: seq<Event>)
    ensures Appends(st, Harvest(st, batch), {}, true)
    decreases |batch|
  {
    hide WakeFromIo, Keeps, RemoveTimerOnce;
    NothingKept(st, st, {});
    if batch != [] && HarvestOne(st, batch[0]).Next? {
      var st1 := HarvestOne(st, batch[0]).value;
      match batch[0] {
        case FdReady(fd) =>
          var st0 := st.(fds := st.fds - {fd});
          NothingKept(st, st0, {});
          FromIoAppends(st0, st.fds[fd], false);
          KeepsTwice(st, st0, st1, {}, true);
        case TimerFired(tid) =>
          var w := st.timers[tid];
          IoKeeps(st, w);
          FromIoAppends(RemoveTimerOnce(st, w, st.tasks[w].timer).value, w, true);
          KeepsTwice(st, RemoveTimerOnce(st, w, st.tasks[w].timer).value, st1, {}, true);
      }
      HarvestAppends(st1, batch[1..]);
      if Harvest(st1, batch[1..]).Next? {
        KeepsTwice(st, st1, Harvest(st1, batch[1..]).value, {}, true);
      }
    }
  }

  // ---- The end of a task ----

  lemma AwaiterAppends(st: State, t: TaskId, a: TaskId)
    ensures Appends(st, WakeAwaiter(st, t, a), {}, true)
  {
    hide Wake, IoRemove, RqPush, RemoveTimerOnce, Keeps;
    if a in st.tasks {
      IoKeeps(st, a);
      PushAppends(st, a);
      NothingKept(st, st, {});
      var o := RemoveTimerOnce(st, a, st.tasks[a].timer);
      if st.tasks[a].onIo && o.Next? {
        IoKeeps(o.value, a);
        var o2 := IoRemove(o.value, a);
        if o2.Next? {
          WakeAppends(o2.value, a);
          KeepsTwice(st, o.value, o2.value, {}, true);
          if Wake(o2.value, a).Next? {
            KeepsTwice(st, o2.value, Wake(o2.value, a).value, {}, true);
          }
        }
      }
    }
  }

  lemma FinishAppends(st: State, t: TaskId, result: int)
    requires t in st.tasks
    ensures Appends(st, Finish(st, t, result), {t}, true)
  {
    hide WakeAwaiter, LeaveScope, Keeps, Retire;
    var x := st.tasks[t];
    if Finish(st, t, result).Next? {
      var st1 := Put(st, t, x.(done := true, result := result, awaiter := None));
      OwnOnly(st, st1, t);
      var st2 := if x.awaiter.Some? then WakeAwaiter(st1, t, x.awaiter.value).value else st1;
      if x.awaiter.Some? {
        AwaiterAppends(st1, t, x.awaiter.value);
        KeepsTwice(st, st1, st2, {t}, true);
      }
      LeaveAppends(st2, x.scope.value);
      var st3 := LeaveScope(st2, x.scope.value, true).value;
      KeepsTwice(st, st2, st3, {t}, true);
      RetireKeeps(st3, t);
      KeepsTwice(st, st3, Retire(st3, t).(cur := None), {t}, true);
    }
  }

  lemma RetireKeeps(st: State, t: TaskId)
    ensures Keeps(st, Retire(st, t).(cur := None), {t}, true)
  {
    hide Carries;
    CarriesSelf(st);
  }

  lemma ScopesOnly(st: State, st': State)
    requires st'.rq == st.rq && st'.tasks == st.tasks && st'.chans == st.chans && ScopesKept(st, st')
    ensures Keeps(st, st', {}, true)
  {
    hide Carries;
    CarriesSelf(st);
  }

  lemma LeaveAppends(st: State, s: ScopeId)
    ensures Appends(st, LeaveScope(st, s, true), {}, true)
  {
    hide Keeps, RqPush;
    if s in st.scopes {
      var c := st.scopes[s];
      var st1 := st.(scopes := st.scopes[s := c.(live := c.live - 1)]);
      var st2 := st.(scopes := st.scopes[s := c.(live := c.live - 1, waiter := None)]);
      ScopesOnly(st, st1);
      ScopesOnly(st, st2);
      if c.waiter.Some? {
        PushAppends(st2, c.waiter.value);
        if RqPush(st2, c.waiter.value).Next? {
          KeepsTwice(st, st2, RqPush(st2, c.waiter.value).value, {}, true);
        }
      }
    }
  }

  // ---- Drops and closes, from what they are known to do ----

  lemma CancelAppends(st: State, t: TaskId, s: ScopeId, all: seq<ChanId>)
    requires Ready(st, t) && CallerOk(st, t, DoCancel(s, all)) && Cancel(st, t, s, all).Next?
    ensures Keeps(st, Cancel(st, t, s, all).value, {t}, false)
  {
    hide Core, ChansOk, ClosedOk, CallerOk, Cancel, CancelEffect, Victims;
    CancelSafe(st, t, s, all);
    ReadyNotDropped(st);
    CancelledKeeps(st, Cancel(st, t, s, all).value, t, s);
  }

  // A ready task is not suspended anywhere.
  lemma ReadyNotDropped(st: State)
    requires Core(st, {})
    ensures forall u :: u in st.rq ==> u in st.tasks && !Droppable(st, u) && st.cur != Some(u)
    ensures forall u :: u in st.rq ==> u != st.next
  {
    hide FramesOk, LinksOk, PollerOk, ScopesOk;
    forall u | u in st.rq ensures u in st.tasks && !Droppable(st, u) && st.cur != Some(u) {
      assert PlaceOk(st, u, {});
    }
  }

  lemma CancelledKeeps(st: State, st': State, t: TaskId, s: ScopeId)
    requires CancelEffect(st, st', t, s)
    requires forall u :: u in st.rq ==> u in st.tasks && !Droppable(st, u)
    ensures Keeps(st, st', {t}, false)
  {
    hide PollerLess, ChansLess, Carries, Victims;
    CarriesSelf(st);
    var back := Put(st', t, st'.tasks[t].(ret := st.tasks[t].ret));
    forall u | u in st'.tasks && u != t
      ensures Carries(st.tasks[u], st'.tasks[u]) || Moved(st, st', u)
    {
      assert u in back.tasks && back.tasks[u] == st'.tasks[u];
    }
  }

  lemma DeadlineAppends(st: State, t: TaskId, s: ScopeId, u: TaskId)
    requires DeadlineResumes(st, t, s, u) && CallerOk(st, t, Continue) && Resume(st, t).Next?
    ensures Keeps(st, Resume(st, t).value, {t}, false)
  {
    hide Core, ChansOk, ClosedOk, Resume, Branch, Keeps;
    ResumeDeadlineSafe(st, t, s, u);
    ReopenedReady(st, t, s, u);
    var b := Reopened(st, t, u);
    assert DeadlineLink(b, t, s, u);
    ReadyNotDropped(b);
    BranchKeeps(b, t, s, u);
    ReopenedKeeps(st, t, u);
    KeepsTwice(st, b, Resume(st, t).value, {t}, false);
  }

  lemma ReopenedKeeps(st: State, t: TaskId, u: TaskId)
    requires t in st.tasks && u in st.tasks
    ensures Keeps(st, Reopened(st, t, u), {t}, false)
  {
  }

  lemma BranchKeeps(b: State, t: TaskId, s: ScopeId, u: TaskId)
    requires Ready(b, t) && u in b.tasks && b.tasks[u].awaiter == None && u != t
    requires DeadlineLink(b, t, s, u)
    requires Droppable(b, u) ==> NoOpenScope(b, u)
    requires forall v :: v in b.rq ==> v in b.tasks && !Droppable(b, v)
    requires Branch(b, t, s, u).Next?
    ensures Keeps(b, Branch(b, t, s, u).value, {t}, false)
  {
    hide Core, ChansOk, ClosedOk, ForceDrop, ChansLess, PollerLess, FrameOk, Carries;
    CarriesSelf(b);
    if !b.tasks[u].done && Droppable(b, u) {
      MarkedInv(b, s, TimedOut);
      ForceDropSafe(Marked(b, s, TimedOut), u, s, t);
    }
  }

  lemma CloseAppends(st: State, t: TaskId, ch: ChanId)
    requires Ready(st, t) && Close(st, t, ch).Next?
    ensures Keeps(st, Close(st, t, ch).value, {t}, false)
  {
    hide Core, ChansOk, ClosedOk, Close, Audience, SelWithout, SelTasks, Heard, Carries;
    CloseAborts(st, t, ch);
    CloseWakes(st, t, ch);
    CarriesSelf(st);
    ReadyNotDropped(st);
    forall u | u in Audience(st.chans[ch]) ensures u !in st.rq {
      assert ParkedOn(st, u, ch);
    }
  }

  lemma CloseAborts(st: State, t: TaskId, ch: ChanId)
    requires t in st.tasks && Close(st, t, ch).Next?
    ensures ch in st.chans && !st.chans[ch].closed
  {
    hide Drain;
  }

  // ---- Channels ----

  lemma FireAppends(st: State, t: TaskId, index: nat)
    ensures Appends(st, SelectFire(st, t, index), {}, false)
    ensures SelectFire(st, t, index).Next? ==> t !in st.rq && t in SelectFire(st, t, index).value.rq
  {
    hide UnlinkFrom, Wake, Keeps;
    if t in st.tasks {
      var st1 := Put(st, t, st.tasks[t].(fired := index));
      var o := UnlinkAll(st1, t);
      if o.Next? {
        UnlinkAppends(st1, t);
        WakeAppends(o.value, t);
        if Wake(o.value, t).Next? {
          Loud(o.value, Wake(o.value, t).value, {});
          KeepsTwice(st1, o.value, Wake(o.value, t).value, {}, false);
          TouchedKeeps(st, st1, Wake(o.value, t).value, t, false);
        }
      }
    }
  }

  lemma Loud(st: State, st': State, own: set<TaskId>)
    requires Keeps(st, st', own, true)
    ensures Keeps(st, st', own, false)
  {
  }

  lemma UnlinkAppends(st: State, t: TaskId)
    ensures Appends(st, UnlinkAll(st, t), {}, false)
    ensures UnlinkAll(st, t).Next? ==> UnlinkAll(st, t).value.rq == st.rq
  {
    hide UnlinkFrom;
  }

  // A parked task is told something and woken.
  lemma ToldAppends(st: State, st1: State, w: TaskId)
    requires w in st.tasks && w in st1.tasks && st1.tasks == st.tasks[w := st1.tasks[w]]
    requires st1.rq == st.rq && st1.scopes == st.scopes && st1.next == st.next
    requires Ends(st.tasks[w], st1.tasks[w])
    ensures Appends(st, Wake(st1, w), {}, false)
  {
    hide Wake, Keeps;
    WakeAppends(st1, w);
    if Wake(st1, w).Next? {
      Loud(st1, Wake(st1, w).value, {});
      TouchedKeeps(st, st1, Wake(st1, w).value, w, false);
    }
  }

  lemma ReceiverAppends(st: State, ch: ChanId, m: Msg)
    requires ch in st.chans && st.chans[ch].recvq != []
    ensures Appends(st, HandToReceiver(st, ch, m), {}, false)
  {
    hide Wake, Keeps;
    var c := st.chans[ch];
    var r := c.recvq[0];
    if r in st.tasks {
      var c' := c.(recvq := c.recvq[1..], log := c.log + [m.value], delivered := c.delivered + [m]);
      ToldAppends(st, Put(PutChan(st, ch, c'), r, st.tasks[r].(pending := Some(m))), r);
    }
  }

  lemma HandoffAppends(st: State, ch: ChanId, m: Msg)
    requires ch in st.chans && st.chans[ch].selq != []
    ensures Appends(st, HandToSelect(st, ch, m), {}, false)
  {
    hide SelectFire, Keeps;
    var c := st.chans[ch];
    var w := c.selq[0];
    if w.task in st.tasks {
      var c' := c.(log := c.log + [m.value], delivered := c.delivered + [m]);
      var x := st.tasks[w.task].(pending := Some(m), closedWake := false);
      var st1 := Put(PutChan(st, ch, c'), w.task, x);
      FireAppends(st1, w.task, w.index);
      if SelectFire(st1, w.task, w.index).Next? {
        TouchedKeeps(st, st1, SelectFire(st1, w.task, w.index).value, w.task, false);
      }
    }
  }

  lemma SendAppends(st: State, t: TaskId, ch: ChanId, v: int)
    requires t in st.tasks
    ensures Appends(st, Send(st, t, ch, v), {t}, false)
  {
    hide HandToReceiver, HandToSelect, Keeps, Carries;
    if Send(st, t, ch, v).Next? {
      var c, st', m := st.chans[ch], Send(st, t, ch, v).value, Msg(|st.chans[ch].log|, v);
      if c.recvq != [] {
        ReceiverAppends(st, ch, m);
        OwnLast(st, HandToReceiver(st, ch, m).value, st', t, false);
      } else if c.selq != [] {
        HandoffAppends(st, ch, m);
        OwnLast(st, HandToSelect(st, ch, m).value, st', t, false);
      } else {
        OwnOnly(st, st', t);
      }
    }
  }

  lemma PopAppends(st: State, ch: ChanId)
    requires ch in st.chans && st.chans[ch].sendq != []
    ensures PopSender(st, ch).Next? ==> Keeps(st, PopSender(st, ch).value.0, {}, false)
  {
    hide Wake, Keeps;
    var c := st.chans[ch];
    var p := c.sendq[0];
    if p in st.tasks {
      ToldAppends(st, Put(PutChan(st, ch, c.(sendq := c.sendq[1..])), p,
                          st.tasks[p].(pending := None)), p);
    }
  }

  lemma TakeAppends(st: State, ch: ChanId)
    requires ch in st.chans
    ensures PollTake(st, ch).Next? ==> Keeps(st, PollTake(st, ch).value.0, {}, false)
  {
    hide PopSender;
    var c := st.chans[ch];
    if c.sendq != [] {
      if c.buf != [] {
        PopAppends(PutChan(st, ch, c.(buf := c.buf[1..], delivered := c.delivered + [c.buf[0]])), ch);
      } else {
        PopAppends(st, ch);
      }
    }
  }

  lemma {:induction false} ScanAppends(st: State, chs: seq<ChanId>, i: nat)
    ensures Scan(st, chs, i).Next? ==> Keeps(st, Scan(st, chs, i).value.0, {}, false)
    decreases |chs| - i
  {
    hide PollTake, Keeps;
    NothingKept(st, st, {});
    Loud(st, st, {});
    if i < |chs| && chs[i] in st.chans {
      TakeAppends(st, chs[i]);
      if PollTake(st, chs[i]).Next? && PollTake(st, chs[i]).value.1.NotReady? {
        var st1 := PollTake(st, chs[i]).value.0;
        ScanAppends(st1, chs, i + 1);
        if Scan(st1, chs, i + 1).Next? {
          KeepsTwice(st, st1, Scan(st1, chs, i + 1).value.0, {}, false);
        }
      }
    }
  }

  lemma RecvAppends(st: State, t: TaskId, ch: ChanId)
    requires t in st.tasks
    ensures Appends(st, RecvOp(st, t, ch), {t}, false)
  {
    hide PollTake, Keeps, Carries;
    if ch in st.chans {
      TakeAppends(st, ch);
      if RecvOp(st, t, ch).Next? {
        var (st1, k) := PollTake(st, ch).value;
        var st' := RecvOp(st, t, ch).value;
        if k.NotReady? {
          OwnOnly(st, st', t);
        } else {
          OwnLast(st, st1, st', t, false);
        }
      }
    }
  }

  lemma SelectAppends(st: State, t: TaskId, chs: seq<ChanId>)
    requires t in st.tasks
    ensures Appends(st, Select(st, t, chs), {t}, false)
  {
    hide Scan, Register, Keeps, Carries;
    ScanAppends(st, chs, 0);
    if Select(st, t, chs).Next? {
      OwnLast(st, Scan(st, chs, 0).value.0, Select(st, t, chs).value, t, false);
    }
  }

  // ---- Continuing after a park ----

  // A continuation that only writes the task's own record.
  lemma OwnAppends(st: State, t: TaskId)
    requires t in st.tasks
    requires var f := st.tasks[t].frame;
      !f.InDeadline? && !f.InDeadlineYield? && !f.InJoin? && !f.InFdTimed?
    ensures Appends(st, Resume(st, t), {t}, true)
  {
    hide Keeps, Classify, JoinTail, ResumeFdTimeout, ResumeRecv, ResumeSelect;
    NothingKept(st, st, {t});
    if st.tasks[t].frame.InRecv? || st.tasks[t].frame.InSelect? {
      TakeOwn(st, t);
    } else if Resume(st, t).Next? && !st.tasks[t].frame.Running? {
      OwnOnly(st, Resume(st, t).value, t);
    }
  }

  lemma TakeOwn(st: State, t: TaskId)
    requires t in st.tasks
    ensures Appends(st, ResumeRecv(st, t), {t}, true) && Appends(st, ResumeSelect(st, t), {t}, true)
  {
    hide Keeps, TakeDelivery;
    if TakeDelivery(st.tasks[t]).Next? {
      OwnOnly(st, ResumeRecv(st, t).value, t);
      OwnOnly(st, ResumeSelect(st, t).value, t);
    }
  }

  lemma FdTimeoutAppends(st: State, t: TaskId, fd: int, tid: TimerId)
    requires t in st.tasks
    ensures Appends(st, ResumeFdTimeout(st, t, fd, tid), {t}, true)
  {
    hide Carries;
    CarriesSelf(st);
  }

  lemma JoinTailAppends(st: State, t: TaskId, s: ScopeId)
    ensures Appends(st, JoinTail(st, t, s), {t}, true)
  {
    hide FreeForks, Without, Carries;
    CarriesSelf(st);
    if s in st.scopes && FreeForks(st.tasks, st.scopes[s].forks).Next? {
      FreedFrom(st.tasks, st.scopes[s].forks);
    }
  }

  lemma {:induction false} FreedFrom(tasks: map<TaskId, Task>, forks: seq<TaskId>)
    requires FreeForks(tasks, forks).Next?
    ensures var r := FreeForks(tasks, forks).value;
      r.Keys <= tasks.Keys && forall u :: u in r ==> r[u] == tasks[u]
  {
    if forks != [] {
      FreedFrom(tasks - {forks[0]}, forks[1..]);
    }
  }

  // ---- Builtins that touch no channel ----

  lemma LinkKeeps(st: State, u: TaskId, t: TaskId)
    requires u in st.tasks
    ensures Keeps(st, Put(st, u, st.tasks[u].(awaiter := Some(t))), {t}, true)
  {
  }

  lemma AwaitAppends(st: State, t: TaskId, u: TaskId)
    requires t in st.tasks
    ensures Appends(st, Await(st, t, u), {t}, true)
  {
    hide Keeps;
    if Await(st, t, u).Next? {
      var st' := Await(st, t, u).value;
      if st.tasks[u].done {
        OwnOnly(st, st', t);
      } else {
        LinkKeeps(st, u, t);
        OwnLast(st, Put(st, u, st.tasks[u].(awaiter := Some(t))), st', t, true);
      }
    }
  }

  lemma ArmAppends(st: State, t: TaskId, s: ScopeId, u: TaskId, arm: Option<TimerId>)
    requires t in st.tasks
    ensures Appends(st, AwaitDeadline(st, t, s, u, arm), {t}, true)
  {
    hide IoPush, Keeps;
    if arm.Some? {
      var x := st.tasks[t].(park := OnTimer, frame := InDeadline(s, u), timer := arm.value,
                            timerDead := false, deadlineChild := Some(u), expired := false);
      IoPushOwn(st, t, x);
      var o := IoPush(Put(st, t, x), t);
      if o.Next? && u in o.value.tasks {
        OwnOnly(st, o.value, t);
        var st2 := Put(o.value, u, o.value.tasks[u].(awaiter := Some(t)));
        LinkKeeps(o.value, u, t);
        KeepsTwice(st, o.value, st2, {t}, true);
        NothingKept(st2, st2.(timers := st2.timers[arm.value := t], cur := None), {t});
        KeepsTwice(st, st2, st2.(timers := st2.timers[arm.value := t], cur := None), {t}, true);
      }
    }
  }

  lemma IoPushOwn(st: State, t: TaskId, x: Task)
    requires t in st.tasks
    ensures var o := IoPush(Put(st, t, x), t);
      o.Next? ==> t in o.value.tasks && o.value.tasks == st.tasks[t := o.value.tasks[t]]
                  && o.value.rq == st.rq && o.value.chans == st.chans
                  && o.value.scopes == st.scopes && o.value.next == st.next
  {
  }

  lemma ParkAppends(st: State, t: TaskId, op: Op)
    requires t in st.tasks && (op.DoParkFd? || op.DoParkFdTimeout? || op.DoSleep?)
    ensures Appends(st, Call(st, t, op), {t}, true)
  {
    hide Keeps, IoPush;
    var o := Call(st, t, op);
    match op {
      case DoParkFd(fd) =>
        IoPushOwn(st, t, st.tasks[t].(park := OnFd(fd), frame := InFd(fd)));
      case DoParkFdTimeout(fd, arm) =>
        if arm.Some? {
          IoPushOwn(st, t, st.tasks[t].(park := OnFdTimer(fd), frame := InFdTimed(fd, arm.value),
                                        timer := arm.value, timerDead := false,
                                        wokeByTimer := false));
        }
      case DoSleep(arm) =>
        if arm.Some? {
          IoPushOwn(st, t, st.tasks[t].(park := OnTimer, frame := InSleep, timer := arm.value,
                                        timerDead := false));
        }
    }
    if o.Next? {
      OwnOnly(st, o.value, t);
    }
  }

  lemma PlainAppends(st: State, t: TaskId)
    requires t in st.tasks
    ensures Appends(st, Yield(st, t), {t}, true) && Appends(st, ScopeOpen(st, t), {t}, true)
    ensures forall s, cap :: Appends(st, ChanNew(st, t, s, cap), {t}, false)
  {
    hide Context, Keeps, RqPush;
    PushAppends(st.(cur := None), t);
    if Yield(st, t).Next? {
      OwnThen(st, st.(cur := None), Yield(st, t).value, t, true);
    }
    OwnOnly(st, ScopeOpen(st, t).value, t);
    forall s, cap | ChanNew(st, t, s, cap).Next?
      ensures Keeps(st, ChanNew(st, t, s, cap).value, {t}, false)
    {
      OwnOnly(st, ChanNew(st, t, s, cap).value, t);
    }
  }

  lemma JoinAppends(st: State, t: TaskId, s: ScopeId)
    requires t in st.tasks
    ensures Appends(st, Join(st, t, s), {t}, true)
  {
    hide JoinTail, Carries;
    CarriesSelf(st);
    JoinTailAppends(st, t, s);
  }

  // A spawn adds one task, and its push is the only one.
  lemma SpawnAppends(st: State, t: TaskId, s: ScopeId, awaitable: bool)
    requires t in st.tasks && Spawn(st, t, s, awaitable).Next?
    ensures var st' := Spawn(st, t, s, awaitable).value;
      && st'.rq == st.rq + [st.next] && st'.chans == st.chans
      && forall u :: u in st.tasks && u != t && u != st.next ==>
           u in st'.tasks && st'.tasks[u] == st.tasks[u]
  {
  }

  // ---- Every step ----

  // The steps that touch no channel, a spawn aside.
  predicate QuietOp(st: State, t: TaskId, op: Op)
    requires t in st.tasks
  {
    var f := st.tasks[t].frame;
    || op.DoYield? || op.DoFinish? || op.DoScopeOpen? || op.DoAwait? || op.DoAwaitDeadline?
    || op.DoJoin? || op.DoParkFd? || op.DoParkFdTimeout? || op.DoSleep?
    || (op.Continue? && !f.InDeadline? && !f.InDeadlineYield?)
  }

  lemma QuietAppends(st: State, t: TaskId, op: Op)
    requires t in st.tasks && QuietOp(st, t, op)
    ensures Appends(st, Call(st, t, op), {t}, true)
  {
    hide Resume, Finish, Yield, ScopeOpen, Appends, Join, Await, AwaitDeadline;
    match op {
      case Continue => ContinueAppends(st, t);
      case DoFinish(r) => FinishAppends(st, t, r);
      case DoJoin(s) => JoinAppends(st, t, s);
      case DoAwait(u) => AwaitAppends(st, t, u);
      case DoAwaitDeadline(s, u, arm) => ArmAppends(st, t, s, u, arm);
      case DoYield => PlainAppends(st, t);
      case DoScopeOpen => PlainAppends(st, t);
      case DoParkFd(_) => ParkAppends(st, t, op);
      case DoParkFdTimeout(_, _) => ParkAppends(st, t, op);
      case DoSleep(_) => ParkAppends(st, t, op);
    }
  }

  lemma ContinueAppends(st: State, t: TaskId)
    requires t in st.tasks && QuietOp(st, t, Continue)
    ensures Appends(st, Resume(st, t), {t}, true)
  {
    hide Classify, JoinTail, ResumeFdTimeout, Keeps;
    match st.tasks[t].frame
    case InJoin(s) => JoinTailAppends(st, t, s);
    case InFdTimed(fd, tid) => FdTimeoutAppends(st, t, fd, tid);
    case _ => OwnAppends(st, t);
  }

  lemma CallAppends(st: State, t: TaskId, op: Op)
    requires Inv(st) && st.cur == Some(t) && t in st.tasks && !op.Pump? && !op.Poll? && !op.DoSpawn?
    requires CallerOk(st, t, op) && (op.Continue? <==> !st.tasks[t].frame.Running?)
    requires Call(st, t, op).Next?
    ensures Keeps(st, Call(st, t, op).value, {t}, false)
  {
    hide Inv, Resume, Cancel, Send, RecvOp, Close, Select, Keeps, ChanNew, CallerOk;
    if QuietOp(st, t, op) {
      hide Call;
      QuietAppends(st, t, op);
      Loud(st, Call(st, t, op).value, {t});
    } else {
      match op {
        case Continue => DeadlineAppends(st, t, st.tasks[t].frame.scope, st.tasks[t].frame.child);
        case DoCancel(s, all) => CancelAppends(st, t, s, all);
        case DoSend(ch, v) => SendAppends(st, t, ch, v);
        case DoRecv(ch) => RecvAppends(st, t, ch);
        case DoClose(ch) => CloseAppends(st, t, ch);
        case DoSelect(chs) => SelectAppends(st, t, chs);
        case DoChanNew(_, _) => PlainAppends(st, t);
      }
    }
  }

  // The pump takes the head; every other step leaves the queue as it is, or longer. No step, the
  // turn that starts it included, changes what a ready task was told.
  lemma StepQueue(st: State, op: Op)
    requires Inv(st) && Enabled(st, op) && Exec(st, op).Next?
    ensures Inv(Exec(st, op).value)
    ensures var st' := Exec(st, op).value;
      && (if op.Pump? then st.rq != [] && st'.cur == Some(st.rq[0]) && st'.rq == st.rq[1..]
          else st.rq <= st'.rq)
      && forall u :: u in st.rq ==>
           u in st.tasks && u in st'.tasks && Carries(st.tasks[u], st'.tasks[u])
  {
    hide Core, ChansOk, ClosedOk, Harvest, Call, CallerOk, Carries;
    StepSafe(st, op);
    ReadyNotDropped(st);
    ReadyNotDropped(Exec(st, op).value);
    CarriesSelf(st);
    if op.DoSpawn? {
      CallSpawn(st, st.cur.value, op.scope, op.awaitable);
      SpawnAppends(st, st.cur.value, op.scope, op.awaitable);
    } else if op.Pump? {
      CurrentThere(Exec(st, op).value);
      PumpKeeps(st);
    } else if op.Poll? {
      HarvestAppends(st, op.batch);
    } else {
      CallAppends(st, st.cur.value, op);
    }
  }

  lemma PumpKeeps(st: State)
    requires Dispatch(st).Next?
    ensures var st' := Dispatch(st).value;
      && st'.tasks.Keys == st.tasks.Keys && st'.chans == st.chans
      && st'.scopes == st.scopes && st'.next == st.next
      && forall u :: u in st.tasks ==> Carries(st.tasks[u], st'.tasks[u])
  {
  }

  lemma CallSpawn(st: State, t: TaskId, s: ScopeId, awaitable: bool)
    requires t in st.tasks
    ensures Call(st, t, DoSpawn(s, awaitable)) == Spawn(st, t, s, awaitable)
  {
  }

  // Whatever the step, the record of a task other than the caller stays as it was, links and
  // registrations apart, unless the step makes the task ready or drops it; and a scope that stays
  // keeps its owner and its forks, but for one that is forked into.
  lemma StepFrame(st: State, op: Op)
    requires Inv(st) && Enabled(st, op) && Exec(st, op).Next?
    ensures Inv(Exec(st, op).value)
    ensures var st' := Exec(st, op).value;
      && (forall u :: u in st.tasks && u in st'.tasks && st.cur != Some(u) ==>
            Carries(st.tasks[u], st'.tasks[u]) || Moved(st, st', u))
      && st.next <= st'.next && (forall s :: s in st'.scopes ==> s in st.scopes || s >= st.next)
      && (forall s :: s in st.scopes && s in st'.scopes ==>
            && st'.scopes[s].owner == st.scopes[s].owner
            && forall f :: f in st.scopes[s].forks ==> f in st'.scopes[s].forks)
  {
    hide Core, ChansOk, ClosedOk, Harvest, Call, CallerOk, Carries, Moved;
    StepSafe(st, op);
    ScopesBelow(st);
    CarriesSelf(st);
    if op.DoSpawn? {
      CurrentThere(st);
      CallSpawn(st, st.cur.value, op.scope, op.awaitable);
      SpawnFrame(st, st.cur.value, op.scope, op.awaitable);
    } else if op.Pump? {
      PumpKeeps(st);
    } else if op.Poll? {
      HarvestAppends(st, op.batch);
    } else {
      CurrentThere(st);
      CallAppends(st, st.cur.value, op);
    }
  }

  lemma ScopesBelow(st: State)
    requires Inv(st)
    ensures st.next !in st.tasks && forall s :: s in st.scopes ==> s < st.next
  {
    hide ChansOk, ClosedOk, QueuesOk, PlacesOk, FramesOk, LinksOk, PollerOk, ScopesOk;
  }

  lemma SpawnFrame(st: State, t: TaskId, s: ScopeId, awaitable: bool)
    requires t in st.tasks && st.next !in st.tasks && Spawn(st, t, s, awaitable).Next?
    ensures var st' := Spawn(st, t, s, awaitable).value;
      && (forall u :: u in st.tasks && u != t ==> u in st'.tasks && st'.tasks[u] == st.tasks[u])
      && st'.next == st.next + 1 && st'.scopes.Keys == st.scopes.Keys
      && forall s' :: s' in st.scopes ==>
           && st'.scopes[s'].owner == st.scopes[s'].owner
           && forall f :: f in st.scopes[s'].forks ==> f in st'.scopes[s'].forks
  {
  }

  // ---- Every run ----

  function Turns(ops: seq<Op>): nat {
    if ops == [] then 0 else (if ops[0].Pump? then 1 else 0) + Turns(ops[1..])
  }

  // While fewer turns have passed than there were tasks ahead of it, a ready task is that much
  // nearer the head.
  lemma {:induction false} MovesUp(st: State, ops: seq<Op>, k: nat)
    requires Inv(st) && Legal(st, ops) && Run(st, ops).Next? && k < |st.rq| && Turns(ops) <= k
    ensures var st' := Run(st, ops).value;
      k - Turns(ops) < |st'.rq| && st'.rq[k - Turns(ops)] == st.rq[k]
    decreases |ops|
  {
    hide Inv, Enabled, Exec, Carries;
    if ops != [] {
      StepQueue(st, ops[0]);
      MovesUp(Exec(st, ops[0]).value, ops[1..], if ops[0].Pump? then k - 1 else k);
    }
  }

  // A run from st that ends with the turn of the task at position k of the ready queue.
  ghost predicate RunsTo(st: State, ops: seq<Op>, k: nat) {
    && Legal(st, ops) && Run(st, ops).Next? && k < |st.rq|
    && ops != [] && ops[|ops| - 1].Pump? && Turns(ops) == k + 1
  }

  // It starts that task, which finds what it was told.
  lemma {:induction false} RunsInTurn(st: State, ops: seq<Op>, k: nat)
    requires Inv(st) && RunsTo(st, ops, k)
    ensures var st', u := Run(st, ops).value, st.rq[k];
      && Inv(st') && st'.cur == Some(u) && u in st.tasks && u in st'.tasks
      && Carries(st.tasks[u], st'.tasks[u])
    decreases |ops|
  {
    hide Inv, Enabled, Exec, Carries;
    StepQueue(st, ops[0]);
    var st1, u := Exec(st, ops[0]).value, st.rq[k];
    if |ops| == 1 {
      assert ops[1..] == [];
    } else {
      var rest := ops[1..];
      assert rest[|rest| - 1] == ops[|ops| - 1];
      LastTurn(rest);
      RunsInTurn(st1, rest, if ops[0].Pump? then k - 1 else k);
      CarriesTwice(st.tasks[u], st1.tasks[u], Run(st, ops).value.tasks[u]);
    }
  }

  lemma CarriesItself(x: Task)
    ensures Carries(x, x)
  {
  }

  lemma CarriesTwice(x: Task, y: Task, z: Task)
    requires Carries(x, y) && Carries(y, z)
    ensures Carries(x, z)
  {
  }

  lemma {:induction false} LastTurn(ops: seq<Op>)
    requires ops != [] && ops[|ops| - 1].Pump?
    ensures Turns(ops) >= 1
  {
    if |ops| > 1 {
      assert ops[1..][|ops| - 2] == ops[|ops| - 1];
      LastTurn(ops[1..]);
    }
  }
}
