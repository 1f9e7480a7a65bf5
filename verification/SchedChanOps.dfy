// Channel operations keep the invariant and reach no undefined behaviour.
module SchedChanOps {
  import opened Common
  import opened SchedState
  import opened SchedSteps
  import opened SchedMachine
  import opened SchedInvariant
  import opened SchedCore
  import opened SchedLife
  import opened SchedChans
  import opened SchedPollOps
  import opened SchedDrop
  import opened SchedScopeOps

  // Core and channels are right; a channel that is being closed may still have its queues.
  ghost predicate Sound(st: State) {
    Core(st, {}) && ChansOk(st, {})
  }

  // ---- One task parked on one channel is woken ----

  // Facts about a task that is suspended on a channel or in a select.
  lemma ParkedOnChan(st: State, r: TaskId)
    requires Core(st, {}) && Alive(st, r) && (st.tasks[r].park.OnChan? || st.tasks[r].park.OnSelect?)
    ensures FrameOk(st, r) && !Woken(st, r) && !st.tasks[r].onIo && r !in st.rq && r !in st.io
    ensures NoDup(st.rq) && NoDup(st.io) && st.cur != Some(r)
    ensures match st.tasks[r].park
            case OnChan(ch, sender) => st.tasks[r].frame == if sender then InSend(ch) else InRecv(ch)
            case _ => st.tasks[r].frame.InSelect?
    ensures NoRefs(st, r)
    ensures st.tasks[r].deadlineChild == None
  {
    hide Core, Context;
    TaskFacts(st, r);
    SuspendedFacts(st, r);
    hide FrameOk;
    NoPolls(st, r);
  }

  lemma NoPolls(st: State, r: TaskId)
    requires Core(st, {}) && Alive(st, r) && !st.tasks[r].onIo && !st.tasks[r].frame.InFdTimed?
    ensures forall tid :: tid in st.timers ==> st.timers[tid] != r
    ensures forall fd :: fd in st.fds ==> st.fds[fd] != r
  {
    hide ScopesOk, IdsOk, FramesOk, LinksOk, QueuesOk, PlacesOk;
  }

  // Task r runnable again, with its outcome.
  function Outcomed(st: State, r: TaskId, x: Task): State
    requires r in st.tasks
  {
    Put(st, r, x.(park := NotParked, inRq := true)).(rq := st.rq + [r])
  }

  // The record of a woken task: what it was, and the outcome.
  predicate OutcomeRecord(x: Task, y: Task) {
    && y == x.(pending := y.pending, closedWake := y.closedWake, fired := y.fired, regs := y.regs)
    && (match x.frame
        case InSend(_) => y.closedWake || y.pending == None
        case InRecv(_) => y.closedWake <==> y.pending == None
        case InSelect => y.regs == [] && (y.closedWake <==> y.pending == None)
        case _ => false)
  }

  lemma OutcomeFrame(st: State, r: TaskId, y: Task, chans: map<ChanId, Chan>)
    requires r in st.tasks && FrameOk(st, r) && OutcomeRecord(st.tasks[r], y)
    requires st.tasks[r].deadlineChild == None
    ensures FrameOk(Outcomed(st, r, y).(chans := chans), r)
  {
  }

  lemma OutcomeCore(st: State, r: TaskId, y: Task, chans: map<ChanId, Chan>)
    requires Core(st, {}) && Alive(st, r) && (st.tasks[r].park.OnChan? || st.tasks[r].park.OnSelect?)
    requires OutcomeRecord(st.tasks[r], y) && chans.Keys == st.chans.Keys
    ensures Core(Outcomed(st, r, y).(chans := chans), {})
  {
    hide Core;
    ParkedOnChan(st, r);
    NoDupSnoc(st.rq, r);
    var st' := Outcomed(st, r, y).(chans := chans);
    OutcomeFrame(st, r, y, chans);
    hide FrameOk;
    assert OneTask(st, st', r, {});
    hide OneTask;
    CoreOneTask(st, st', r, {}, {});
  }

  // The channel without its first sender or receiver; ring and history may change too.
  ghost predicate HeadGone(c: Chan, c': Chan, sender: bool) {
    && c'.scope == c.scope && c'.cap == c.cap && c'.selq == c.selq && c'.closed == c.closed
    && ShapeOk(c')
    && (if sender then c.sendq != [] && c'.sendq == c.sendq[1..] && c'.recvq == c.recvq
        else c.recvq != [] && c'.recvq == c.recvq[1..] && c'.sendq == c.sendq)
  }

  function Head(c: Chan, sender: bool): TaskId
    requires if sender then c.sendq != [] else c.recvq != []
  {
    if sender then c.sendq[0] else c.recvq[0]
  }

  lemma HeadParked(st: State, ch: ChanId, sender: bool)
    requires ChansOk(st, {}) && ch in st.chans
    requires if sender then st.chans[ch].sendq != [] else st.chans[ch].recvq != []
    ensures Alive(st, Head(st.chans[ch], sender))
    ensures st.tasks[Head(st.chans[ch], sender)].park == OnChan(ch, sender)
    ensures ShapeOk(st.chans[ch])
  {
    assert ChanOk(st, ch, {});
    assert Head(st.chans[ch], sender) in if sender then st.chans[ch].sendq else st.chans[ch].recvq;
  }

  lemma HeadChans(st: State, ch: ChanId, sender: bool, y: Task, c': Chan)
    requires ChansOk(st, {}) && ch in st.chans && HeadGone(st.chans[ch], c', sender)
    requires var r := Head(st.chans[ch], sender);
      r in st.tasks && y == st.tasks[r].(pending := y.pending, closedWake := y.closedWake)
    ensures ChansOk(Outcomed(st, Head(st.chans[ch], sender), y).(chans := st.chans[ch := c']), {})
  {
    hide ChansOk;
    HeadParked(st, ch, sender);
    var r := Head(st.chans[ch], sender);
    var st' := Outcomed(st, r, y).(chans := st.chans[ch := c']);
    HeadMove(st, ch, sender, st', c');
    hide OneChan;
    ChansOne(st, st', ch, r, {}, {});
  }

  lemma HeadMove(st: State, ch: ChanId, sender: bool, st': State, c': Chan)
    requires ChansOk(st, {}) && ch in st.chans && HeadGone(st.chans[ch], c', sender)
    requires var r := Head(st.chans[ch], sender);
      && Alive(st, r) && st.tasks[r].park == OnChan(ch, sender)
      && r in st'.tasks && st'.tasks[r].park == NotParked
      && st' == st.(tasks := st.tasks[r := st'.tasks[r]], rq := st'.rq,
                    chans := st.chans[ch := c'])
    ensures OneChan(st, st', ch, Head(st.chans[ch], sender), {}, {})
  {
    assert ChanOk(st, ch, {});
    var c := st.chans[ch];
    if sender {
      NoDupTail(c.sendq);
    } else {
      NoDupTail(c.recvq);
    }
  }

  // A sender or receiver at the head of its queue is woken with an outcome.
  lemma HeadWoken(st: State, ch: ChanId, sender: bool, y: Task, c': Chan)
    requires Sound(st) && ch in st.chans && HeadGone(st.chans[ch], c', sender)
    requires var r := Head(st.chans[ch], sender);
      && r in st.tasks
      && y == st.tasks[r].(pending := y.pending, closedWake := y.closedWake)
      && (if sender then y.closedWake || y.pending == None else y.closedWake <==> y.pending == None)
    ensures Sound(Outcomed(st, Head(st.chans[ch], sender), y).(chans := st.chans[ch := c']))
  {
    hide Core, ChansOk, ShapeOk;
    HeadParked(st, ch, sender);
    var r := Head(st.chans[ch], sender);
    ParkedOnChan(st, r);
    hide FrameOk, NoRefs;
    HeadChans(st, ch, sender, y, c');
    OutcomeCore(st, r, y, st.chans[ch := c']);
  }

  // ---- A select fires ----

  lemma SelHead(st: State, ch: ChanId)
    requires ChansOk(st, {}) && ch in st.chans && st.chans[ch].selq != []
    ensures var w := st.chans[ch].selq[0];
      && Alive(st, w.task) && st.tasks[w.task].park == OnSelect
      && w.index < |st.tasks[w.task].regs| && st.tasks[w.task].regs[w.index] == ch
  {
    assert ChanOk(st, ch, {});
    assert st.chans[ch].selq[0] in st.chans[ch].selq;
  }

  // The outcome is on the task and in the channel's history, and nothing is unlinked yet.
  ghost predicate Primed(st: State, st1: State, t: TaskId, ch: ChanId) {
    && ch in st.chans && ch in st1.chans && t in st.tasks && t in st1.tasks
    && st1 == st.(tasks := st.tasks[t := st1.tasks[t]], chans := st.chans[ch := st1.chans[ch]])
    && st1.tasks[t] == st.tasks[t].(pending := st1.tasks[t].pending, fired := st1.tasks[t].fired,
                                    closedWake := st1.tasks[t].closedWake)
    && st1.chans[ch] == st.chans[ch].(log := st1.chans[ch].log,
                                      delivered := st1.chans[ch].delivered)
  }

  lemma PrimedChan(st: State, st1: State, t: TaskId, ch: ChanId, ch': ChanId)
    requires ch' in st.chans && ChanOk(st, ch', {}) && Alive(st, t) && st.tasks[t].park == OnSelect
    requires Primed(st, st1, t, ch)
    ensures var c, c' := st.chans[ch'], st1.chans[ch'];
      && c' == c.(selq := c'.selq, log := c'.log, delivered := c'.delivered)
      && ShapeOk(c') && NoDup(c'.selq) && c'.selq == c.selq
      && (forall w: SelReg :: w.task == t ==> (w in c'.selq <==>
            w.index < |st.tasks[t].regs| && st.tasks[t].regs[w.index] == ch'))
  {
  }

  lemma PrimedMove(st: State, st1: State, t: TaskId, ch: ChanId)
    requires ChansOk(st, {}) && Alive(st, t) && st.tasks[t].park == OnSelect
    requires Primed(st, st1, t, ch)
    ensures SelectMove(st, st1, t, {}, {})
  {
    hide ChanOk, ShapeOk;
    assert ParkTargetOk(st, t);
    forall ch' | ch' in st.chans
      ensures var c, c' := st.chans[ch'], st1.chans[ch'];
        && c' == c.(selq := c'.selq, log := c'.log, delivered := c'.delivered)
        && ShapeOk(c') && NoDup(c'.selq) && c'.selq == c.selq
        && (forall w: SelReg :: w.task == t ==> (w in c'.selq <==>
              w.index < |st.tasks[t].regs| && st.tasks[t].regs[w.index] == ch'))
    {
      PrimedChan(st, st1, t, ch, ch');
    }
    hide ChansOk;
  }

  lemma PrimedChans(st: State, st1: State, t: TaskId, ch: ChanId)
    requires ChansOk(st, {}) && Alive(st, t) && st.tasks[t].park == OnSelect
    requires Primed(st, st1, t, ch)
    ensures ChansOk(st1, {})
  {
    hide ChansOk, SelectMove;
    PrimedMove(st, st1, t, ch);
    ChansSelect(st, st1, t, {}, {});
  }

  // Firing takes every registration of t off every channel and makes t runnable.
  lemma FireIs(st1: State, t: TaskId, index: nat)
    requires ChansOk(st1, {}) && Alive(st1, t) && st1.tasks[t].park == OnSelect && t !in st1.rq
    ensures var o := SelectFire(st1, t, index);
      && o.Next?
      && o.value == Outcomed(st1, t, st1.tasks[t].(fired := index, regs := []))
                      .(chans := o.value.chans)
      && o.value.chans.Keys == st1.chans.Keys
      && ChansOk(o.value, {}) && ChansLess(st1, o.value, {t})
  {
    hide ChansOk, UnlinkAll, ChansLess, SelectMove, SelectFire;
    var x := st1.tasks[t].(fired := index);
    var st2 := Put(st1, t, x);
    assert ChansOk(st2, {}) by {
      ChansFrame0(st1, st2);
    }
    UnlinkAllMove(st2, t);
    UnlinkKeys(st2, t);
    var st3 := UnlinkAll(st2, t).value;
    ChansSelect(st2, st3, t, {}, {t});
    FireShape(st1, t, index, st3.chans);
    PutPut(st1, t, x, x.(regs := []));
    var st4 := SelectFire(st1, t, index).value;
    LimboWoken(st3, st4, t);
    SameLess(st1, st2, st3, st4, t);
  }

  lemma SameLess(st1: State, st2: State, st3: State, st4: State, t: TaskId)
    requires ChansLess(st2, st3, {t}) && st1.chans == st2.chans && st3.chans == st4.chans
    ensures ChansLess(st1, st4, {t})
  {
  }

  lemma UnlinkKeys(st: State, t: TaskId)
    requires ChansOk(st, {}) && t in st.tasks && Alive(st, t) && st.tasks[t].park == OnSelect
    ensures UnlinkAll(st, t).Next?
    ensures var st' := UnlinkAll(st, t).value;
      && st' == Put(st, t, st.tasks[t].(regs := [])).(chans := st'.chans)
      && st'.chans.Keys == st.chans.Keys
  {
    hide ChansOk, UnlinkAll, SelWithout;
    UnlinkAllIs(st, t);
  }

  lemma FireShape(st1: State, t: TaskId, index: nat, chans: map<ChanId, Chan>)
    requires t in st1.tasks && t !in st1.rq
    requires var x := st1.tasks[t].(fired := index);
      UnlinkAll(Put(st1, t, x), t) == Next(Put(Put(st1, t, x), t, x.(regs := [])).(chans := chans))
    ensures SelectFire(st1, t, index) ==
              Next(Outcomed(st1, t, st1.tasks[t].(fired := index, regs := [])).(chans := chans))
  {
    hide UnlinkAll;
    var x := st1.tasks[t].(fired := index);
    var y := x.(regs := []);
    PutPut(st1, t, x, y);
    PutPut(st1, t, y, y.(park := NotParked));
    PutPut(st1, t, y.(park := NotParked), y.(park := NotParked, inRq := true));
  }

  lemma ChansFrame0(st: State, st': State)
    requires ChansOk(st, {}) && st'.chans == st.chans && st'.scopes == st.scopes
    requires forall t :: SameParked(st, st', t, {}, {})
    ensures ChansOk(st', {})
  {
    hide ChansOk;
    ChansScopes(st, st', {});
    ChansFrame(st, st', {}, {});
  }

  lemma LimboWoken(st3: State, st4: State, t: TaskId)
    requires ChansOk(st3, {t}) && st4.chans == st3.chans && st4.scopes == st3.scopes
    requires t in st3.tasks && t in st4.tasks && st4.tasks == st3.tasks[t := st4.tasks[t]]
    requires st4.tasks[t].park.NotParked?
    ensures ChansOk(st4, {})
  {
    hide ChansOk;
    forall u ensures SameParked(st3, st4, u, {t}, {}) {
    }
    ChansScopes(st3, st4, {t});
    ChansFrame(st3, st4, {t}, {});
  }

  // A select at the head of a channel's queue is woken with an outcome.
  lemma SelectWoken(st: State, st1: State, ch: ChanId)
    requires Sound(st) && ch in st.chans && st.chans[ch].selq != []
    requires var w := st.chans[ch].selq[0];
      && Primed(st, st1, w.task, ch)
      && (st1.tasks[w.task].closedWake <==> st1.tasks[w.task].pending == None)
    ensures var w := st.chans[ch].selq[0];
      var o := SelectFire(st1, w.task, w.index);
      && o.Next? && Sound(o.value)
      && o.value == Outcomed(st, w.task, st1.tasks[w.task].(fired := w.index, regs := []))
                      .(chans := o.value.chans)
      && o.value.chans.Keys == st.chans.Keys
      && ChansLess(st1, o.value, {w.task})
  {
    hide Core, ChansOk, SelectFire, ChansLess;
    var w := st.chans[ch].selq[0];
    SelHead(st, ch);
    ParkedOnChan(st, w.task);
    hide FrameOk, NoRefs;
    PrimedChans(st, st1, w.task, ch);
    FireIs(st1, w.task, w.index);
    var st' := SelectFire(st1, w.task, w.index).value;
    var y := st1.tasks[w.task].(fired := w.index, regs := []);
    OutcomeCore(st, w.task, y, st'.chans);
    PutPut(st, w.task, st1.tasks[w.task], y.(park := NotParked, inRq := true));
    assert st' == Outcomed(st, w.task, y).(chans := st'.chans);
  }

  // ---- Send ----

  lemma StillRunning(st: State, t: TaskId, r: TaskId)
    requires Ready(st, t) && Alive(st, r) && (st.tasks[r].park.OnChan? || st.tasks[r].park.OnSelect?)
    ensures r != t
  {
    hide Core, ChansOk, ClosedOk, FrameOk, NoRefs;
    ParkedOnChan(st, r);
  }

  // The running task goes on after a step that left it alone.
  lemma ReturnToSafe(st: State, st1: State, t: TaskId, r: Ret)
    requires Ready(st, t) && Inv(st1) && st1.cur == Some(t)
    requires t in st1.tasks && st1.tasks[t] == st.tasks[t]
    ensures ReturnTo(st1, t, r).Next? && Inv(ReturnTo(st1, t, r).value)
  {
    hide Core, ChansOk, ClosedOk, FrameOk, NoRefs;
    RunningFacts(st, t);
    ReturnSafe(st1, t, st1.tasks[t].(frame := Running, ret := r));
  }

  lemma ToReceiver(st: State, t: TaskId, ch: ChanId, m: Msg)
    requires Ready(st, t) && ch in st.chans && !st.chans[ch].closed && st.chans[ch].recvq != []
    ensures var o := HandToReceiver(st, ch, m);
      && o.Next? && Inv(o.value) && o.value.cur == Some(t)
      && t in o.value.tasks && o.value.tasks[t] == st.tasks[t]
  {
    hide Core, ChansOk, ClosedOk;
    var c := st.chans[ch];
    var r := c.recvq[0];
    HeadParked(st, ch, false);
    ParkedOnChan(st, r);
    StillRunning(st, t, r);
    hide NoRefs;
    var y := st.tasks[r].(pending := Some(m));
    var c' := c.(recvq := c.recvq[1..], log := c.log + [m.value],
                 delivered := c.delivered + [m]);
    HeadWoken(st, ch, false, y, c');
    hide FrameOk;
    var st' := Outcomed(st, r, y).(chans := st.chans[ch := c']);
    WakeIs(PutChan(st, ch, c'), r, y);
    assert HandToReceiver(st, ch, m) == Next(st');
    OneOpen(st, st', ch);
  }

  lemma WakeIs(st: State, r: TaskId, y: Task)
    requires r in st.tasks && r !in st.rq
    ensures Wake(Put(st, r, y), r) == Next(Outcomed(st, r, y))
  {
    PutPut(st, r, y, y.(park := NotParked));
    PutPut(st, r, y.(park := NotParked), y.(park := NotParked, inRq := true));
  }

  // Changing an open channel cannot break what holds of the closed ones.
  lemma OneOpen(st: State, st': State, ch: ChanId)
    requires ClosedOk(st) && ch in st.chans && ch in st'.chans
    requires st'.chans == st.chans[ch := st'.chans[ch]] && !st'.chans[ch].closed
    ensures ClosedOk(st')
  {
  }

  lemma ToSelect(st: State, t: TaskId, ch: ChanId, m: Msg)
    requires Ready(st, t) && ch in st.chans && !st.chans[ch].closed && st.chans[ch].selq != []
    ensures var o := HandToSelect(st, ch, m);
      && o.Next? && Inv(o.value) && o.value.cur == Some(t)
      && t in o.value.tasks && o.value.tasks[t] == st.tasks[t]
  {
    hide Core, ChansOk, ClosedOk, SelectFire, ChansLess, FrameOk, NoRefs;
    var c := st.chans[ch];
    var w := c.selq[0];
    SelHead(st, ch);
    ParkedOnChan(st, w.task);
    StillRunning(st, t, w.task);
    var c' := c.(log := c.log + [m.value], delivered := c.delivered + [m]);
    var x := st.tasks[w.task].(pending := Some(m), closedWake := false);
    var st1 := Put(PutChan(st, ch, c'), w.task, x);
    SelectWoken(st, st1, ch);
    OneOpen(st, st1, ch);
    LessClosed(st1, SelectFire(st1, w.task, w.index).value, {w.task});
  }

  // The running task and one channel change together.
  lemma OwnChanStep(st: State, st': State, t: TaskId, ch: ChanId)
    requires Ready(st, t) && ch in st.chans && ch in st'.chans && t in st'.tasks
    requires st' == st.(tasks := st.tasks[t := st'.tasks[t]], cur := st'.cur,
                        chans := st.chans[ch := st'.chans[ch]])
    requires var x, x' := st.tasks[t], st'.tasks[t];
      && x' == x.(frame := x'.frame, ret := x'.ret, park := x'.park, pending := x'.pending)
      && (if st'.cur == None then x'.park.OnChan? && x'.park.chan == ch && FrameOk(st', t)
          else st'.cur == Some(t) && x'.park.NotParked? && x'.frame.Running? && x'.pending == None)
    requires var c, c' := st.chans[ch], st'.chans[ch];
      && c'.scope == c.scope && c'.cap == c.cap && c'.selq == c.selq && ShapeOk(c')
      && c'.sendq == (if st'.tasks[t].park == OnChan(ch, true) then c.sendq + [t] else c.sendq)
      && c'.recvq == (if st'.tasks[t].park == OnChan(ch, false) then c.recvq + [t] else c.recvq)
    ensures Sound(st')
  {
    hide Core, ChansOk, ClosedOk, FrameOk;
    RunningFacts(st, t);
    OwnChanCore(st, st', t, ch);
    OwnChanMove(st, st', t, ch);
    hide OneChan;
    ChansOne(st, st', ch, t, {}, {});
  }

  lemma OwnChanCore(st: State, st': State, t: TaskId, ch: ChanId)
    requires Ready(st, t) && ch in st.chans && ch in st'.chans && t in st'.tasks
    requires st' == st.(tasks := st.tasks[t := st'.tasks[t]], cur := st'.cur,
                        chans := st.chans[ch := st'.chans[ch]])
    requires var x, x' := st.tasks[t], st'.tasks[t];
      && x' == x.(frame := x'.frame, ret := x'.ret, park := x'.park, pending := x'.pending)
      && (if st'.cur == None then x'.park.OnChan? && x'.park.chan == ch && FrameOk(st', t)
          else st'.cur == Some(t) && x'.park.NotParked? && x'.frame.Running? && x'.pending == None)
    ensures Core(st', {})
  {
    hide Core, ChansOk, ClosedOk;
    RunningFacts(st, t);
    assert FrameOk(st', t);
    hide FrameOk;
    assert OneTask(st, st', t, {});
    hide OneTask;
    CoreOneTask(st, st', t, {}, {});
  }

  lemma OwnChanMove(st: State, st': State, t: TaskId, ch: ChanId)
    requires ChansOk(st, {}) && Alive(st, t) && st.tasks[t].park.NotParked?
    requires ch in st.chans && ch in st'.chans && t in st'.tasks
    requires st' == st.(tasks := st.tasks[t := st'.tasks[t]], cur := st'.cur,
                        chans := st.chans[ch := st'.chans[ch]])
    requires var x, x' := st.tasks[t], st'.tasks[t];
      && x' == x.(frame := x'.frame, ret := x'.ret, park := x'.park, pending := x'.pending)
      && (x'.park.NotParked? || (x'.park.OnChan? && x'.park.chan == ch))
    requires var c, c' := st.chans[ch], st'.chans[ch];
      && c'.scope == c.scope && c'.cap == c.cap && c'.selq == c.selq && ShapeOk(c')
      && c'.sendq == (if st'.tasks[t].park == OnChan(ch, true) then c.sendq + [t] else c.sendq)
      && c'.recvq == (if st'.tasks[t].park == OnChan(ch, false) then c.recvq + [t] else c.recvq)
    ensures OneChan(st, st', ch, t, {}, {})
  {
    assert ChanOk(st, ch, {});
    hide ChansOk;
    var c := st.chans[ch];
    NoDupSnoc(c.sendq, t);
    NoDupSnoc(c.recvq, t);
  }

  lemma SendSafe(st: State, t: TaskId, ch: ChanId, v: int)
    requires Ready(st, t)
    ensures Safe(Send(st, t, ch, v))
    ensures Send(st, t, ch, v).Abort? <==> ch !in st.chans || st.chans[ch].closed
  {
    hide Core, ChansOk, ClosedOk, HandToReceiver, HandToSelect, ReturnTo, FrameOk, NoRefs;
    if ch in st.chans && !st.chans[ch].closed {
      var c := st.chans[ch];
      var m := Msg(|c.log|, v);
      if c.recvq != [] {
        ToReceiver(st, t, ch, m);
        ReturnToSafe(st, HandToReceiver(st, ch, m).value, t, Unit);
      } else if c.selq != [] {
        ToSelect(st, t, ch, m);
        ReturnToSafe(st, HandToSelect(st, ch, m).value, t, Unit);
      } else {
        SendAlone(st, t, ch, v);
      }
    }
  }

  // Nobody is waiting: the value goes into the ring, or the sender parks with it.
  lemma SendAlone(st: State, t: TaskId, ch: ChanId, v: int)
    requires Ready(st, t) && ch in st.chans && !st.chans[ch].closed
    requires st.chans[ch].recvq == [] && st.chans[ch].selq == []
    ensures Send(st, t, ch, v).Next? && Inv(Send(st, t, ch, v).value)
  {
    hide Core, ClosedOk;
    RunningFacts(st, t);
    hide NoRefs;
    assert ChanOk(st, ch, {});
    hide ChansOk, FrameOk;
    var c := st.chans[ch];
    if |c.buf| < c.cap {
      var c' := c.(buf := c.buf + [Msg(|c.log|, v)], log := c.log + [v]);
      var x := st.tasks[t].(frame := Running, ret := Unit);
      OwnChanStep(st, Put(PutChan(st, ch, c'), t, x), t, ch);
      OneOpen(st, Put(PutChan(st, ch, c'), t, x), ch);
    } else {
      SendParks(st, t, ch, v);
    }
  }

  lemma SendParks(st: State, t: TaskId, ch: ChanId, v: int)
    requires Ready(st, t) && ch in st.chans && !st.chans[ch].closed
    requires st.chans[ch].recvq == [] && st.chans[ch].selq == []
    requires |st.chans[ch].buf| == st.chans[ch].cap
    ensures Send(st, t, ch, v).Next? && Inv(Send(st, t, ch, v).value)
  {
    hide Core, ClosedOk, ChansOk;
    RunningFacts(st, t);
    hide NoRefs;
    var st' := Send(st, t, ch, v).value;
    assert FrameOk(st', t);
    hide FrameOk;
    OwnChanStep(st, st', t, ch);
    OneOpen(st, st', ch);
  }
}
