// Force-dropping one suspended task: it is deregistered from whatever it is suspended on,
// and from nothing else.
module SchedDrop {
  import opened Common
  import opened SchedState
  import opened SchedSteps
  import opened SchedMachine
  import opened SchedInvariant
  import opened SchedCore
  import opened SchedLife
  import opened SchedChans
  import opened SchedPollOps

  // The entries of a select queue whose tasks are not in d, in order.
  function SelWithout(q: seq<SelReg>, d: set<TaskId>): seq<SelReg> {
    if q == [] then []
    else if q[0].task in d then SelWithout(q[1..], d)
    else [q[0]] + SelWithout(q[1..], d)
  }

  lemma {:induction false} SelWithoutIs(q: seq<SelReg>, t: TaskId, n: nat)
    requires forall w :: w in q && w.task == t ==> w.index < n
    ensures Without(q, RegSet(t, 0, n)) == SelWithout(q, {t})
  {
    if q != [] {
      assert q[0] in q;
      assert q[0] in RegSet(t, 0, n) <==> q[0].task == t by {
        if q[0].task == t {
          assert q[0] == SelReg(t, q[0].index);
        }
      }
      SelWithoutIs(q[1..], t, n);
    }
  }

  // The current task me, running its own code, owns the scope that t belongs to, and t is
  // suspended where a drop can reach it.
  ghost predicate DropReady(st: State, t: TaskId, s: ScopeId, me: TaskId) {
    && st.cur == Some(me) && me in st.tasks && st.tasks[me].frame.Running? && t != me
    && t in st.tasks && Alive(st, t) && st.tasks[t].scope == Some(s)
    && s in st.scopes && st.scopes[s].owner == me
    && Droppable(st, t) && NoOpenScope(st, t)
  }

  // ---- Deregistering ----

  // Suspended facts for a task that is on the poller list, a channel queue or a select.
  lemma SuspendedFacts(st: State, t: TaskId)
    requires Core(st, {}) && t in st.tasks && Alive(st, t) && Droppable(st, t)
    requires st.tasks[t].deadlineChild == None
    ensures FrameOk(st, t) && PlaceOk(st, t, {}) && !Woken(st, t)
    ensures t !in st.rq && (t in st.io <==> st.tasks[t].onIo) && NoDup(st.rq) && NoDup(st.io)
    ensures TimerFacts(st, t)
    ensures forall u :: u in st.tasks ==> st.tasks[u].awaiter != Some(t)
    ensures forall s :: s in st.scopes ==> st.scopes[s].waiter != Some(t)
  {
    hide ScopesOk, IdsOk;
    assert PlaceOk(st, t, {});
    assert FrameOk(st, t);
  }

  // The poller registrations of a dropped task go with it.
  function Unpolled(st: State, t: TaskId): State
    requires t in st.tasks
  {
    var x := st.tasks[t];
    var p := x.park;
    Put(st, t, x.(onIo := false, timerDead := x.timerDead || p.OnTimer? || p.OnFdTimer?))
      .(io := Without(st.io, {t}),
        fds := if p.OnFd? || p.OnFdTimer? then st.fds - {p.fd} else st.fds,
        timers := if p.OnTimer? || p.OnFdTimer? then st.timers - {x.timer} else st.timers)
  }

  lemma DeregisterIo(st: State, t: TaskId)
    requires Core(st, {}) && t in st.tasks && Alive(st, t) && st.tasks[t].onIo
    requires st.tasks[t].deadlineChild == None
    ensures Deregister(st, t) == Next(Unpolled(st, t))
  {
    hide Core, TimerFacts, Without, DeadlineFrameOk, LinkFrameOk, ChanFrameOk, Context;
    SuspendedFacts(st, t);
    IoParked(st, t);
    hide FrameOk, PlaceOk, PollFrameOk;
    var x := st.tasks[t];
    PutPut(st, t, x.(timerDead := true), x.(timerDead := true, onIo := false));
    assert st.tasks[t := x] == st.tasks;
  }

  // What a task on the poller's list is registered with.
  lemma IoParked(st: State, t: TaskId)
    requires t in st.tasks && Alive(st, t) && st.tasks[t].onIo && st.tasks[t].deadlineChild == None
    requires FrameOk(st, t) && PlaceOk(st, t, {}) && !Woken(st, t)
    ensures var p := st.tasks[t].park;
      && IoPark(p)
      && (p.OnTimer? || p.OnFdTimer? ==> TimerLive(st, t))
      && (p.OnFd? || p.OnFdTimer? ==> p.fd in st.fds && st.fds[p.fd] == t)
  {
    hide Context;
  }

  lemma LimboIo(st: State, t: TaskId)
    requires Core(st, {}) && t in st.tasks && Alive(st, t) && st.tasks[t].onIo
    requires st.tasks[t].deadlineChild == None
    ensures OneTask(st, Unpolled(st, t), t, {t})
    ensures PollerLess(st, Unpolled(st, t), {t})
  {
    hide Core, OnePoller, PollerLess;
    SuspendedFacts(st, t);
    UnpolledPoller(st, t);
    hide FrameOk, TimerFacts;
    WithoutKeepsNoDup(st.io, {t});
  }

  lemma UnpolledPoller(st: State, t: TaskId)
    requires Core(st, {}) && t in st.tasks && Alive(st, t) && st.tasks[t].onIo
    requires st.tasks[t].deadlineChild == None
    ensures OnePoller(st, Unpolled(st, t), t) && PollerLess(st, Unpolled(st, t), {t})
  {
    hide Core;
    SuspendedFacts(st, t);
  }

  function Unchanneled(st: State, t: TaskId, ch: ChanId, sender: bool): State
    requires t in st.tasks && ch in st.chans
  {
    var c := st.chans[ch];
    if sender then
      PutChan(st, ch, c.(sendq := Without(c.sendq, {t})))
    else
      PutChan(st, ch, c.(recvq := Without(c.recvq, {t})))
  }

  // Taking a suspended task into limbo without touching its record.
  lemma LimboStill(st: State, st': State, t: TaskId)
    requires Core(st, {}) && t in st.tasks && Alive(st, t) && !st.tasks[t].onIo
    requires Droppable(st, t) && st.tasks[t].deadlineChild == None
    requires t in st'.tasks && st'.tasks[t] == st.tasks[t].(regs := st'.tasks[t].regs)
    requires st' == st.(tasks := st.tasks[t := st'.tasks[t]], chans := st'.chans)
    requires st'.chans.Keys == st.chans.Keys
    ensures OneTask(st, st', t, {t})
    ensures forall tid :: tid in st.timers ==> st.timers[tid] != t
    ensures forall fd :: fd in st.fds ==> st.fds[fd] != t
  {
    hide Core;
    SuspendedFacts(st, t);
    hide FrameOk;
  }

  // ---- The effect of deregistering, whatever the task is suspended on ----

  // c' is c without the tasks of d on its queues.
  ghost predicate ChanLess(c: Chan, c': Chan, d: set<TaskId>) {
    && c'.sendq == Without(c.sendq, d)
    && c'.recvq == Without(c.recvq, d)
    && c'.selq == SelWithout(c.selq, d)
    && c'.buf == c.buf && c'.cap == c.cap && c'.scope == c.scope && c'.closed == c.closed
    && c'.log == c.log && c'.delivered == c.delivered
  }

  ghost predicate ChansLess(st: State, st': State, d: set<TaskId>) {
    && st'.chans.Keys == st.chans.Keys
    && forall ch :: ch in st.chans ==> ChanLess(st.chans[ch], st'.chans[ch], d)
  }

  // The poller has forgotten the registrations of the tasks of d, and no others.
  ghost predicate PollerLess(st: State, st': State, d: set<TaskId>) {
    && (forall tid :: tid in st'.timers <==> tid in st.timers && st.timers[tid] !in d)
    && (forall tid :: tid in st'.timers ==> st'.timers[tid] == st.timers[tid])
    && (forall fd :: fd in st'.fds <==> fd in st.fds && st.fds[fd] !in d)
    && (forall fd :: fd in st'.fds ==> st'.fds[fd] == st.fds[fd])
  }

  ghost predicate DeregEffect(st: State, st': State, t: TaskId) {
    && t in st.tasks && t in st'.tasks
    && st'.tasks == st.tasks[t := st'.tasks[t]]
    && st'.tasks[t] == st.tasks[t].(onIo := false, timerDead := st'.tasks[t].timerDead,
                                    regs := st'.tasks[t].regs)
    && st'.scopes == st.scopes && st'.rq == st.rq && st'.cur == st.cur && st'.next == st.next
    && st'.io == Without(st.io, {t})
    && PollerLess(st, st', {t})
    && ChansLess(st, st', {t})
  }

  lemma {:induction false} SelWithoutNothing(q: seq<SelReg>, d: set<TaskId>)
    requires forall w :: w in q ==> w.task !in d
    ensures SelWithout(q, d) == q
  {
    if q != [] {
      assert q[0] in q;
      SelWithoutNothing(q[1..], d);
    }
  }

  // A channel that t is not on loses nothing.
  lemma ChanUntouched(st: State, ch: ChanId, t: TaskId)
    requires ch in st.chans && ChanOk(st, ch, {})
    requires Alive(st, t) ==>
               st.tasks[t].park != OnChan(ch, true) && st.tasks[t].park != OnChan(ch, false)
    requires Alive(st, t) ==> st.tasks[t].park != OnSelect
    ensures ChanLess(st.chans[ch], st.chans[ch], {t})
  {
    var c := st.chans[ch];
    WithoutNothing(c.sendq, {t});
    WithoutNothing(c.recvq, {t});
    SelWithoutNothing(c.selq, {t});
  }

  lemma DeregIoSafe(st: State, t: TaskId)
    requires Inv(st) && t in st.tasks && Alive(st, t) && st.tasks[t].onIo
    requires st.tasks[t].deadlineChild == None
    ensures Deregister(st, t) == Next(Unpolled(st, t))
    ensures Core(Unpolled(st, t), {t}) && ChansOk(Unpolled(st, t), {t}) && ClosedOk(Unpolled(st, t))
    ensures DeregEffect(st, Unpolled(st, t), t)
  {
    hide Core, ClosedOk, OneTask, FrameOk, Deregister, PollerLess, Without, TimerFacts;
    DeregisterIo(st, t);
    LimboIo(st, t);
    SuspendedFacts(st, t);
    var st' := Unpolled(st, t);
    CoreOneTask(st, st', t, {}, {t});
    forall u ensures SameParked(st, st', u, {}, {t}) {
      assert u != t && u in st.tasks ==> st'.tasks[u] == st.tasks[u];
    }
    hide PlaceOk;
    ChanScopes(st);
    ChansFrame(st, st', {}, {t});
    forall ch | ch in st.chans ensures ChanLess(st.chans[ch], st'.chans[ch], {t}) {
      ChanUntouched(st, ch, t);
    }
    hide ChansOk;
    assert ClosedOk(st') by {
      ClosedFrame(st, st');
    }
  }

  lemma ChanScopes(st: State)
    requires ChansOk(st, {})
    ensures forall ch :: ch in st.chans ==> st.chans[ch].scope in st.scopes
  {
    forall ch | ch in st.chans ensures st.chans[ch].scope in st.scopes {
      assert ChanOk(st, ch, {});
    }
  }

  lemma ClosedFrame(st: State, st': State)
    requires ClosedOk(st) && st'.chans == st.chans
    ensures ClosedOk(st')
  {
  }

  // Removing t from one channel's queues and nothing else.
  lemma UnchanneledIs(st: State, t: TaskId, ch: ChanId, sender: bool)
    requires ChansOk(st, {}) && ch in st.chans
    requires t in st.tasks && Alive(st, t) && st.tasks[t].park == OnChan(ch, sender)
    ensures Deregister(st, t) == Next(Unchanneled(st, t, ch, sender))
    ensures ChanLess(st.chans[ch], Unchanneled(st, t, ch, sender).chans[ch], {t})
    ensures ShapeOk(Unchanneled(st, t, ch, sender).chans[ch])
  {
    var c := st.chans[ch];
    assert ChanOk(st, ch, {});
    SelWithoutNothing(c.selq, {t});
    if sender {
      WithoutNothing(c.recvq, {t});
    } else {
      WithoutNothing(c.sendq, {t});
    }
    assert Without(c.sendq, {t}) != [] ==> Without(c.sendq, {t})[0] in c.sendq;
    assert Without(c.recvq, {t}) != [] ==> Without(c.recvq, {t})[0] in c.recvq;
  }

  lemma UnchanneledChans(st: State, t: TaskId, ch: ChanId, sender: bool)
    requires ChansOk(st, {}) && ch in st.chans
    requires t in st.tasks && Alive(st, t) && st.tasks[t].park == OnChan(ch, sender)
    ensures ChansOk(Unchanneled(st, t, ch, sender), {t})
    ensures ChansLess(st, Unchanneled(st, t, ch, sender), {t})
  {
    hide ChansOk, Unchanneled, SelWithout;
    UnchanneledIs(st, t, ch, sender);
    UnchanneledMove(st, t, ch, sender);
    var st' := Unchanneled(st, t, ch, sender);
    ChansOne(st, st', ch, t, {}, {t});
    forall ch' | ch' in st.chans ensures ChanLess(st.chans[ch'], st'.chans[ch'], {t}) {
      if ch' != ch {
        OtherUntouched(st, ch', t);
      }
    }
  }

  lemma OtherUntouched(st: State, ch: ChanId, t: TaskId)
    requires ChansOk(st, {}) && ch in st.chans
    requires Alive(st, t) && st.tasks[t].park.OnChan? && st.tasks[t].park.chan != ch
    ensures ChanLess(st.chans[ch], st.chans[ch], {t})
  {
    assert ChanOk(st, ch, {});
    ChanUntouched(st, ch, t);
  }

  lemma UnchanneledMove(st: State, t: TaskId, ch: ChanId, sender: bool)
    requires ChansOk(st, {}) && ch in st.chans
    requires t in st.tasks && Alive(st, t) && st.tasks[t].park == OnChan(ch, sender)
    ensures OneChan(st, Unchanneled(st, t, ch, sender), ch, t, {}, {t})
    ensures Unchanneled(st, t, ch, sender) ==
              st.(tasks := st.tasks[t := st.tasks[t]],
                  chans := st.chans[ch := Unchanneled(st, t, ch, sender).chans[ch]])
  {
    UnchanneledQueues(st, t, ch, sender);
    var c' := Unchanneled(st, t, ch, sender).chans[ch];
    assert Unchanneled(st, t, ch, sender) == PutChan(st, ch, c');
    hide Unchanneled;
    LeftQueue(st, ch, c', t);
    assert st.tasks == st.tasks[t := st.tasks[t]];
  }

  lemma LeftQueue(st: State, ch: ChanId, c': Chan, t: TaskId)
    requires ch in st.chans && Alive(st, t)
    requires st.tasks[t].park.OnChan? && st.tasks[t].park.chan == ch
    requires var c := st.chans[ch];
      && ShapeOk(c') && NoDup(c'.sendq) && NoDup(c'.recvq) && c'.selq == c.selq
      && c'.scope == c.scope && c'.cap == c.cap
      && c'.sendq == Without(c.sendq, {t}) && c'.recvq == Without(c.recvq, {t})
    ensures OneChan(st, PutChan(st, ch, c'), ch, t, {}, {t})
  {
    hide ShapeOk, NoDup;
  }

  // The queues of the channel without t.
  lemma UnchanneledQueues(st: State, t: TaskId, ch: ChanId, sender: bool)
    requires ChansOk(st, {}) && ch in st.chans
    requires t in st.tasks && Alive(st, t) && st.tasks[t].park == OnChan(ch, sender)
    ensures var c, c' := st.chans[ch], Unchanneled(st, t, ch, sender).chans[ch];
      && ShapeOk(c') && NoDup(c'.sendq) && NoDup(c'.recvq) && c'.selq == c.selq
      && c'.scope == c.scope && c'.cap == c.cap
      && c'.sendq == Without(c.sendq, {t}) && c'.recvq == Without(c.recvq, {t})
  {
    var c := st.chans[ch];
    assert ChanOk(st, ch, {});
    UnchanneledIs(st, t, ch, sender);
    hide ChansOk, Deregister, ShapeOk;
    WithoutKeepsNoDup(c.sendq, {t});
    WithoutKeepsNoDup(c.recvq, {t});
    SelWithoutNothing(c.selq, {t});
  }

  // What DeregisterSafe promises of the state st' that t was deregistered into.
  ghost predicate Deregistered(st: State, st': State, t: TaskId) {
    Core(st', {t}) && ChansOk(st', {t}) && ClosedOk(st') && DeregEffect(st, st', t)
  }

  // Deregistering from channels leaves the queues and the poller alone.
  lemma DeregStill(st: State, st': State, t: TaskId)
    requires Inv(st) && t in st.tasks && Alive(st, t) && !st.tasks[t].onIo
    requires Droppable(st, t) && st.tasks[t].deadlineChild == None
    requires t in st'.tasks && st'.tasks[t] == st.tasks[t].(regs := st'.tasks[t].regs)
    requires st' == st.(tasks := st.tasks[t := st'.tasks[t]], chans := st'.chans)
    requires ChansLess(st, st', {t}) && ChansOk(st', {t})
    ensures Deregistered(st, st', t)
  {
    hide Core, ChansOk, ClosedOk, OneTask, FrameOk, ChanLess;
    SuspendedFacts(st, t);
    LimboStill(st, st', t);
    CoreOneTask(st, st', t, {}, {t});
    WithoutNothing(st.io, {t});
    LessClosed(st, st', {t});
  }

  lemma DeregChanSafe(st: State, t: TaskId)
    requires Inv(st) && t in st.tasks && Alive(st, t) && st.tasks[t].park.OnChan?
    requires st.tasks[t].deadlineChild == None
    ensures Deregister(st, t).Next? && Deregistered(st, Deregister(st, t).value, t)
  {
    hide Core, ClosedOk, FrameOk, Deregister, ChanOk, OneChan, ChansLess, Deregistered;
    var ch, sender := st.tasks[t].park.chan, st.tasks[t].park.sender;
    assert ParkTargetOk(st, t);
    SuspendedFacts(st, t);
    hide ChansOk;
    UnchanneledIs(st, t, ch, sender);
    UnchanneledMove(st, t, ch, sender);
    UnchanneledChans(st, t, ch, sender);
    hide Unchanneled;
    DeregStill(st, Unchanneled(st, t, ch, sender), t);
  }

  // Queues that only lost tasks are still empty where they were.
  lemma LessClosed(st: State, st': State, d: set<TaskId>)
    requires ClosedOk(st) && ChansLess(st, st', d)
    ensures ClosedOk(st')
  {
  }

  // ---- Select ----

  lemma UnlinkAllIs(st: State, t: TaskId)
    requires ChansOk(st, {}) && t in st.tasks && Alive(st, t) && st.tasks[t].park == OnSelect
    ensures UnlinkAll(st, t).Next?
    ensures var st' := UnlinkAll(st, t).value;
      && st' == Put(st, t, st.tasks[t].(regs := [])).(chans := st'.chans)
      && st'.chans.Keys == st.chans.Keys
      && forall ch :: ch in st.chans ==>
           && st'.chans[ch] == st.chans[ch].(selq := st'.chans[ch].selq)
           && st'.chans[ch].selq == SelWithout(st.chans[ch].selq, {t})
           && NoDup(st'.chans[ch].selq)
           && (forall w: SelReg :: w in st'.chans[ch].selq <==>
                 w in st.chans[ch].selq && w.task != t)
  {
    var regs := st.tasks[t].regs;
    assert ParkTargetOk(st, t);
    forall j | 0 <= j < |regs| ensures regs[j] in st.chans && SelReg(t, j) in st.chans[regs[j]].selq {
      assert ChanOk(st, regs[j], {});
    }
    forall ch, j | ch in st.chans && 0 <= j < |regs| && SelReg(t, j) in st.chans[ch].selq
      ensures regs[j] == ch
    {
      assert ChanOk(st, ch, {});
    }
    UnlinkEffect(st.chans, t, regs, 0);
    forall ch | ch in st.chans
      ensures Without(st.chans[ch].selq, RegSet(t, 0, |regs|)) == SelWithout(st.chans[ch].selq, {t})
      ensures NoDup(Without(st.chans[ch].selq, RegSet(t, 0, |regs|)))
      ensures forall w: SelReg :: w in Without(st.chans[ch].selq, RegSet(t, 0, |regs|)) <==>
                w in st.chans[ch].selq && w.task != t
    {
      assert ChanOk(st, ch, {});
      SelWithoutIs(st.chans[ch].selq, t, |regs|);
      WithoutKeepsNoDup(st.chans[ch].selq, RegSet(t, 0, |regs|));
      forall w: SelReg | w in st.chans[ch].selq && w.task == t ensures w in RegSet(t, 0, |regs|) {
        assert w == SelReg(t, w.index);
      }
    }
  }

  lemma UnlinkAllChan(st: State, t: TaskId, c: Chan, c': Chan, ch: ChanId)
    requires ch in st.chans && c == st.chans[ch] && ChanOk(st, ch, {})
    requires t in st.tasks && Alive(st, t) && st.tasks[t].park == OnSelect
    requires c' == c.(selq := c'.selq) && c'.selq == SelWithout(c.selq, {t})
    requires forall w: SelReg :: w in c'.selq <==> w in c.selq && w.task != t
    ensures ShapeOk(c') && ChanLess(c, c', {t})
  {
    WithoutNothing(c.sendq, {t});
    WithoutNothing(c.recvq, {t});
    assert c'.selq != [] ==> c'.selq[0] in c.selq;
  }

  lemma UnlinkAllMove(st: State, t: TaskId)
    requires ChansOk(st, {}) && t in st.tasks && Alive(st, t) && st.tasks[t].park == OnSelect
    ensures UnlinkAll(st, t).Next?
    ensures SelectMove(st, UnlinkAll(st, t).value, t, {}, {t})
    ensures ChansLess(st, UnlinkAll(st, t).value, {t})
  {
    hide UnlinkAll, ShapeOk, ChanLess, ChanOk, SelWithout;
    UnlinkAllIs(st, t);
    var st' := UnlinkAll(st, t).value;
    forall ch | ch in st.chans
      ensures ShapeOk(st'.chans[ch]) && ChanLess(st.chans[ch], st'.chans[ch], {t})
    {
      UnlinkAllChan(st, t, st.chans[ch], st'.chans[ch], ch);
    }
  }

  lemma DeregSelectSafe(st: State, t: TaskId)
    requires Inv(st) && t in st.tasks && Alive(st, t) && st.tasks[t].park == OnSelect
    requires st.tasks[t].deadlineChild == None
    ensures Deregister(st, t).Next? && Deregistered(st, Deregister(st, t).value, t)
  {
    hide Core, ClosedOk, FrameOk, UnlinkAll, ChanOk, ChansLess, Deregistered, ChansOk, SelectMove;
    SuspendedFacts(st, t);
    UnlinkAllIs(st, t);
    UnlinkAllMove(st, t);
    var st' := UnlinkAll(st, t).value;
    ChansSelect(st, st', t, {}, {t});
    DeregStill(st, st', t);
  }

  lemma DeregisterSafe(st: State, t: TaskId)
    requires Inv(st) && t in st.tasks && Alive(st, t) && Droppable(st, t)
    requires st.tasks[t].deadlineChild == None
    ensures Deregister(st, t).Next? && Deregistered(st, Deregister(st, t).value, t)
  {
    hide Core, ClosedOk, ChansOk, Deregister, DeregEffect;
    SuspendedFacts(st, t);
    if st.tasks[t].onIo {
      DeregIoSafe(st, t);
    } else if st.tasks[t].park.OnChan? {
      DeregChanSafe(st, t);
    } else {
      DeregSelectSafe(st, t);
    }
  }

  // ---- The whole drop ----

  // What a drop of t from scope s changes: t itself, its registrations, and the live count.
  ghost predicate DropEffect(st: State, st': State, t: TaskId, s: ScopeId) {
    && t in st.tasks && s in st.scopes
    && (if st.tasks[t].awaitable then
          && t in st'.tasks && st'.tasks[t].dropped
          && st'.tasks == st.tasks[t := st'.tasks[t]]
        else st'.tasks == st.tasks - {t})
    && st'.scopes == st.scopes[s := st.scopes[s].(live := st.scopes[s].live - 1)]
    && st'.rq == st.rq && st'.cur == st.cur && st'.next == st.next
    && st'.io == Without(st.io, {t})
    && PollerLess(st, st', {t})
    && ChansLess(st, st', {t})
  }

  // No suspended or yielding task waits for t, and nobody is joining its scope.
  lemma NobodyWaits(st: State, t: TaskId, s: ScopeId, me: TaskId, v: TaskId)
    requires Core(st, {}) && DropReady(st, t, s, me) && st.tasks[t].awaiter == None
    requires v in st.tasks && Alive(st, v) && v != t
    ensures !RefersTo(st.tasks[v].frame, t) && st.tasks[v].frame != InJoin(s)
  {
    hide QueuesOk, PollerOk, IdsOk, LinksOk, PlacesOk, ScopeOk, LiveSet, PollFrameOk, ChanFrameOk;
    assert FrameOk(st, v);
    assert NestOk(st.tasks, st.scopes, v);
  }

  // A drop that is not refused by the guards ends in the state it should.
  lemma ForceDropSafe(st: State, t: TaskId, s: ScopeId, me: TaskId)
    requires Inv(st) && DropReady(st, t, s, me)
    ensures Safe(ForceDrop(st, t, me))
    ensures ForceDrop(st, t, me).Next? ==> DropEffect(st, ForceDrop(st, t, me).value, t, s)
    ensures ForceDrop(st, t, me).Next? <==>
              st.tasks[t].awaiter == None && st.tasks[t].deadlineChild == None
  {
    hide Core, ClosedOk, ChansOk, Deregister, ChansLess, LeaveScope, DropEffect;
    var x := st.tasks[t];
    if (x.awaiter == None || x.awaiter == Some(me)) && x.deadlineChild == None {
      DeregisterSafe(st, t);
      DropAwaiter(st, t, s, me);
      DropLeave(st, Deregister(st, t).value, t, s, me);
    } else if x.awaiter == Some(me) {
      DropAwaiter(st, t, s, me);
    }
  }

  lemma DropAwaiter(st: State, t: TaskId, s: ScopeId, me: TaskId)
    requires Inv(st) && DropReady(st, t, s, me)
    ensures st.tasks[t].awaiter != Some(me)
  {
    hide ClosedOk, ChansOk;
    RunningFacts(st, me);
    hide Core;
  }

  function AfterDrop(st1: State, t: TaskId): State
    requires t in st1.tasks
  {
    if st1.tasks[t].awaitable then Put(st1, t, st1.tasks[t].(dropped := true))
    else st1.(tasks := st1.tasks - {t})
  }

  function LiveLess(c: Scope): Scope {
    c.(live := c.live - 1)
  }

  lemma DropLeaveMove(st: State, st1: State, st': State, t: TaskId, s: ScopeId, me: TaskId)
    requires Inv(st) && DropReady(st, t, s, me)
    requires st.tasks[t].awaiter == None && st.tasks[t].deadlineChild == None
    requires DeregEffect(st, st1, t)
    requires st' == AfterDrop(st1, t).(scopes := st.scopes[s := LiveLess(st.scopes[s])])
    ensures LeaveMove(st1, st', t, s, {t}, {})
  {
    hide Core, ClosedOk, ChansOk, ChansLess, FrameOk;
    SuspendedFacts(st, t);
    forall v | v in st.tasks && Alive(st, v) && v != t
      ensures !RefersTo(st.tasks[v].frame, t) && st.tasks[v].frame != InJoin(s)
    {
      NobodyWaits(st, t, s, me, v);
    }
    hide RefersTo;
  }

  lemma DropLeaveEffect(st: State, st1: State, st': State, t: TaskId, s: ScopeId)
    requires DeregEffect(st, st1, t) && s in st.scopes
    requires st' == AfterDrop(st1, t).(scopes := st.scopes[s := LiveLess(st.scopes[s])])
    ensures DropEffect(st, st', t, s)
  {
    hide ChansLess, PollerLess, Without;
    var x, y := st.tasks[t], st1.tasks[t];
    DropLess(st, st1, st', {t});
    if x.awaitable {
      assert st.tasks[t := y][t := y.(dropped := true)] == st.tasks[t := y.(dropped := true)];
    } else {
      assert st.tasks[t := y] - {t} == st.tasks - {t};
    }
  }

  lemma DropLess(st: State, st1: State, st': State, d: set<TaskId>)
    requires ChansLess(st, st1, d) && PollerLess(st, st1, d)
    requires st'.chans == st1.chans && st'.timers == st1.timers && st'.fds == st1.fds
    ensures ChansLess(st, st', d) && PollerLess(st, st', d)
  {
  }

  lemma DropLeaveChans(st1: State, st': State, t: TaskId, s: ScopeId)
    requires t in st1.tasks && ChansOk(st1, {t}) && s in st1.scopes
    requires st' == AfterDrop(st1, t).(scopes := st1.scopes[s := LiveLess(st1.scopes[s])])
    ensures ChansOk(st', {})
  {
    hide ChansOk;
    forall u ensures SameParked(st1, st', u, {t}, {}) {
      assert u != t ==> (u in st'.tasks <==> u in st1.tasks);
    }
    ChansScopes(st1, st', {t});
    ChansFrame(st1, st', {t}, {});
  }

  lemma DropLeave(st: State, st1: State, t: TaskId, s: ScopeId, me: TaskId)
    requires Inv(st) && DropReady(st, t, s, me)
    requires st.tasks[t].awaiter == None && st.tasks[t].deadlineChild == None
    requires Deregistered(st, st1, t)
    ensures var o := LeaveScope(AfterDrop(st1, t), s, false);
      o.Next? && Inv(o.value) && DropEffect(st, o.value, t, s)
  {
    hide Core, ClosedOk, ChansOk, ChansLess, PollerLess, DropEffect, LeaveMove;
    var st' := AfterDrop(st1, t).(scopes := st.scopes[s := LiveLess(st.scopes[s])]);
    assert LeaveScope(AfterDrop(st1, t), s, false) == Next(st');
    DropLeaveMove(st, st1, st', t, s, me);
    DropLeaveEffect(st, st1, st', t, s);
    CoreLeave(st1, st', t, s, {t}, {});
    ClosedFrame(st1, st');
    DropLeaveChans(st1, st', t, s);
  }

  lemma ChansScopes(st: State, st': State, limbo: set<TaskId>)
    requires ChansOk(st, limbo) && st.scopes.Keys <= st'.scopes.Keys
    ensures forall ch :: ch in st.chans ==> st.chans[ch].scope in st'.scopes
  {
    forall ch | ch in st.chans ensures st.chans[ch].scope in st'.scopes {
      assert ChanOk(st, ch, limbo);
    }
  }
}
