// Opening and closing channels keep the invariant; a close leaves nobody on the channel.
module SchedCloseOps {
  import opened Common
  import opened SchedState
  import opened SchedSteps
  import opened SchedMachine
  import opened SchedInvariant
  import opened SchedLife
  import opened SchedChans
  import opened SchedPollOps
  import opened SchedDrop
  import opened SchedScopeOps
  import opened SchedChanOps
  import opened SchedCancel

  // ---- New ----

  // A fresh channel beside the old ones.
  function Widened(st: State, s: ScopeId, cap: nat): State {
    st.(chans := st.chans[st.next := Chan(s, cap, [], [], [], [], false, [], [])],
        next := st.next + 1)
  }

  lemma WidenedCore(st: State, s: ScopeId, cap: nat)
    requires Core(st, {})
    ensures Core(Widened(st, s, cap), {})
  {
    hide ScopesOk, FrameOk;
    var st' := Widened(st, s, cap);
    forall t | t in st'.tasks ensures PlaceOk(st', t, {}) {
      assert PlaceOk(st, t, {});
    }
    forall t | t in st'.tasks && Alive(st', t) ensures FrameOk(st', t) {
      WidenedFrame(st, s, cap, t);
    }
  }

  lemma WidenedFrame(st: State, s: ScopeId, cap: nat, t: TaskId)
    requires t in st.tasks && FrameOk(st, t)
    ensures FrameOk(Widened(st, s, cap), t)
  {
    assert Context(Widened(st, s, cap), t) == Context(st, t);
  }

  lemma WidenedInv(st: State, s: ScopeId, cap: nat)
    requires Inv(st) && s in st.scopes
    ensures Inv(Widened(st, s, cap))
  {
    hide Core, ParkTargetOk, ChanOk;
    var st' := Widened(st, s, cap);
    WidenedCore(st, s, cap);
    forall ch | ch in st'.chans ensures ChanOk(st', ch, {}) {
      if ch == st.next {
        WidenedNew(st, s, cap);
      } else {
        WidenedOld(st, s, cap, ch);
      }
    }
    forall t | t in st'.tasks && Alive(st', t) ensures ParkTargetOk(st', t) {
      WidenedPark(st, s, cap, t);
    }
  }

  lemma WidenedOld(st: State, s: ScopeId, cap: nat, ch: ChanId)
    requires ch in st.chans && ch != st.next && ChanOk(st, ch, {})
    ensures ChanOk(Widened(st, s, cap), ch, {})
  {
    var st' := Widened(st, s, cap);
    assert st.chans[ch].scope in st'.scopes;
    forall t ensures SameParked(st, st', t, {}, {}) {
    }
    hide ChanOk;
    ChanFrame1(st, st', ch, {}, {});
  }

  lemma WidenedPark(st: State, s: ScopeId, cap: nat, t: TaskId)
    requires t in st.tasks && ParkTargetOk(st, t)
    ensures ParkTargetOk(Widened(st, s, cap), t)
  {
  }

  // Nobody is on a channel that does not exist yet.
  lemma WidenedNew(st: State, s: ScopeId, cap: nat)
    requires Inv(st) && s in st.scopes
    ensures ChanOk(Widened(st, s, cap), st.next, {})
  {
    hide QueuesOk, PlacesOk, FramesOk, LinksOk, PollerOk, ScopesOk, ChanOk;
    var st' := Widened(st, s, cap);
    forall t | Alive(st, t) ensures !st.tasks[t].park.OnChan? || st.tasks[t].park.chan != st.next {
      assert ParkTargetOk(st, t);
    }
    assert st.next !in st.chans;
    forall w: SelReg | Alive(st, w.task) && st.tasks[w.task].park == OnSelect
                       && w.index < |st.tasks[w.task].regs|
      ensures st.tasks[w.task].regs[w.index] != st.next
    {
      assert ParkTargetOk(st, w.task);
    }
    WidenedFits(st', st.next);
  }

  lemma WidenedFits(st: State, ch: ChanId)
    requires ch in st.chans && st.chans[ch].scope in st.scopes
    requires st.chans[ch].buf == [] && st.chans[ch].sendq == [] && st.chans[ch].recvq == []
    requires st.chans[ch].selq == []
    requires forall t :: Alive(st, t) ==>
               st.tasks[t].park != OnChan(ch, true) && st.tasks[t].park != OnChan(ch, false)
    requires forall w: SelReg | Alive(st, w.task) && st.tasks[w.task].park == OnSelect
                                && w.index < |st.tasks[w.task].regs| ::
               st.tasks[w.task].regs[w.index] != ch
    ensures ChanOk(st, ch, {})
  {
  }

  // A new empty channel, open, under an id never used, that the caller is told.
  ghost predicate ChanMade(st: State, st': State, t: TaskId, s: ScopeId, cap: int) {
    && cap >= 0 && t in st.tasks && t in st'.tasks && st'.tasks[t].ret.Handle?
    && var ch := st'.tasks[t].ret.id;
    && ch !in st.chans && st'.chans == st.chans[ch := Chan(s, cap, [], [], [], [], false, [], [])]
    && st'.tasks == st.tasks[t := st'.tasks[t]] && st'.tasks[t] == st.tasks[t].(ret := Handle(ch))
    && st'.cur == Some(t) && SameQueues(st, st') && st'.scopes == st.scopes
  }

  lemma ChanNewSafe(st: State, t: TaskId, s: ScopeId, cap: int)
    requires Ready(st, t)
    ensures Safe(ChanNew(st, t, s, cap))
    ensures ChanNew(st, t, s, cap).Abort? <==> s !in st.scopes || cap < 0
    ensures ChanNew(st, t, s, cap).Next? ==>
              ChanMade(st, ChanNew(st, t, s, cap).value, t, s, cap)
  {
    hide Core, ChansOk, ClosedOk, FrameOk, NoRefs;
    FreshIds(st);
    if s in st.scopes && cap >= 0 {
      WidenedInv(st, s, cap);
      RunningFacts(st, t);
      ReturnSafe(Widened(st, s, cap), t, st.tasks[t].(ret := Handle(st.next)));
    }
  }

  // ---- Close ----

  // Channel ch is marked closed and its queues are being emptied by the running task t.
  ghost predicate Draining(st: State, t: TaskId, ch: ChanId) {
    && Sound(st)
    && st.cur == Some(t) && t in st.tasks && st.tasks[t].frame.Running?
    && ch in st.chans && st.chans[ch].closed
    && (forall ch' :: ch' in st.chans && ch' != ch && st.chans[ch'].closed ==>
          !Parked(st.chans[ch']))
  }

  lemma NotParkedRunning(st: State, t: TaskId, r: TaskId)
    requires Core(st, {}) && st.cur == Some(t) && t in st.tasks && st.tasks[t].frame.Running?
    requires Alive(st, r) && (st.tasks[r].park.OnChan? || st.tasks[r].park.OnSelect?)
    ensures r != t
  {
    hide Core, FrameOk, NoRefs;
    ParkedOnChan(st, r);
  }

  // The next state of a drain keeps the running task and shortens the queues.
  ghost predicate DrainStep(st: State, o: Out, t: TaskId, ch: ChanId) {
    && o.Next? && t in st.tasks && t in o.value.tasks && o.value.tasks[t] == st.tasks[t]
    && QueueLen(o.value, ch) < QueueLen(st, ch)
    && Draining(o.value, t, ch)
  }

  lemma DrainReceiver(st: State, t: TaskId, ch: ChanId)
    requires Draining(st, t, ch) && st.chans[ch].recvq != []
    ensures DrainStep(st, CloseReceiver(st, ch), t, ch)
  {
    hide Core, ChansOk, FrameOk, NoRefs;
    var c := st.chans[ch];
    var r := c.recvq[0];
    HeadParked(st, ch, false);
    ParkedOnChan(st, r);
    NotParkedRunning(st, t, r);
    var y := st.tasks[r].(closedWake := true);
    RecvPending(st, r);
    var c' := c.(recvq := c.recvq[1..]);
    HeadWoken(st, ch, false, y, c');
    WakeIs(PutChan(st, ch, c'), r, y);
  }

  lemma RecvPending(st: State, r: TaskId)
    requires Core(st, {}) && Alive(st, r)
    requires st.tasks[r].park.OnSelect? || (st.tasks[r].park.OnChan? && !st.tasks[r].park.sender)
    ensures st.tasks[r].pending == None
  {
    hide Core, Context, NoRefs;
    ParkedOnChan(st, r);
  }

  lemma DrainSender(st: State, t: TaskId, ch: ChanId)
    requires Draining(st, t, ch) && st.chans[ch].recvq == [] && st.chans[ch].sendq != []
    ensures DrainStep(st, CloseSender(st, ch), t, ch)
  {
    hide Core, ChansOk, FrameOk, NoRefs;
    var c := st.chans[ch];
    var p := c.sendq[0];
    HeadParked(st, ch, true);
    ParkedOnChan(st, p);
    NotParkedRunning(st, t, p);
    var y := st.tasks[p].(closedWake := true);
    var c' := c.(sendq := c.sendq[1..]);
    HeadWoken(st, ch, true, y, c');
    WakeIs(PutChan(st, ch, c'), p, y);
  }

  lemma DrainSelect(st: State, t: TaskId, ch: ChanId)
    requires Draining(st, t, ch) && st.chans[ch].recvq == [] && st.chans[ch].sendq == []
    requires st.chans[ch].selq != []
    ensures DrainStep(st, CloseSelect(st, ch), t, ch)
  {
    hide Core, ChansOk, FrameOk, NoRefs, SelectFire, ChansLess;
    var w := st.chans[ch].selq[0];
    SelHead(st, ch);
    ParkedOnChan(st, w.task);
    NotParkedRunning(st, t, w.task);
    RecvPending(st, w.task);
    var st1 := Put(st, w.task, st.tasks[w.task].(closedWake := true));
    assert st.chans[ch := st.chans[ch]] == st.chans;
    SelectWoken(st, st1, ch);
    FiredDrain(st, st1, SelectFire(st1, w.task, w.index).value, ch, w);
  }

  lemma FiredDrain(st: State, st1: State, st2: State, ch: ChanId, w: SelReg)
    requires st1.chans == st.chans && ChansLess(st1, st2, {w.task})
    requires ch in st.chans && w in st.chans[ch].selq
    ensures ch in st2.chans && QueueLen(st2, ch) < QueueLen(st, ch)
    ensures st2.chans[ch].closed == st.chans[ch].closed
    ensures forall ch' :: ch' in st.chans ==>
              && st2.chans[ch'].closed == st.chans[ch'].closed
              && (!Parked(st.chans[ch']) ==> !Parked(st2.chans[ch']))
  {
    assert ChanLess(st.chans[ch], st2.chans[ch], {w.task});
    SelWithoutShrinks(st.chans[ch].selq, w);
    forall ch' | ch' in st.chans && !Parked(st.chans[ch']) ensures !Parked(st2.chans[ch']) {
      assert ChanLess(st.chans[ch'], st2.chans[ch'], {w.task});
    }
  }

  // The drain ends, with nobody left on the channel.
  lemma {:induction false} DrainSafe(st: State, t: TaskId, ch: ChanId)
    requires Draining(st, t, ch)
    ensures var o := Drain(st, ch);
      && o.Next? && Inv(o.value) && o.value.cur == Some(t)
      && t in o.value.tasks && o.value.tasks[t] == st.tasks[t]
      && ch in o.value.chans && o.value.chans[ch].closed && !Parked(o.value.chans[ch])
    decreases QueueLen(st, ch)
  {
    hide CloseReceiver, CloseSender, CloseSelect, Core, ChansOk, FrameOk;
    var c := st.chans[ch];
    if Parked(c) {
      if c.recvq != [] {
        DrainReceiver(st, t, ch);
        DrainSafe(CloseReceiver(st, ch).value, t, ch);
      } else if c.sendq != [] {
        DrainSender(st, t, ch);
        DrainSafe(CloseSender(st, ch).value, t, ch);
      } else {
        DrainSelect(st, t, ch);
        DrainSafe(CloseSelect(st, ch).value, t, ch);
      }
    }
  }

  lemma CloseStart(st: State, t: TaskId, ch: ChanId)
    requires Ready(st, t) && ch in st.chans && !st.chans[ch].closed
    ensures Draining(PutChan(st, ch, st.chans[ch].(closed := true)), t, ch)
  {
    hide Core, ClosedOk;
    RunningFacts(st, t);
    hide FrameOk, NoRefs;
    assert ChanOk(st, ch, {});
    hide ChansOk;
    var st' := PutChan(st, ch, st.chans[ch].(closed := true));
    assert st.tasks == st.tasks[t := st.tasks[t]];
    OwnChanStep(st, st', t, ch);
    CloseOthers(st, ch);
  }

  lemma CloseOthers(st: State, ch: ChanId)
    requires ClosedOk(st) && ch in st.chans
    ensures forall ch' :: ch' in st.chans && ch' != ch && st.chans[ch'].closed ==>
              !Parked(st.chans[ch'])
  {
  }

  lemma CloseSafe(st: State, t: TaskId, ch: ChanId)
    requires Ready(st, t)
    ensures Safe(Close(st, t, ch))
    ensures Close(st, t, ch).Abort? <==> ch !in st.chans || st.chans[ch].closed
    ensures Close(st, t, ch).Next? ==>
              var st' := Close(st, t, ch).value;
              ch in st'.chans && st'.chans[ch].closed && !Parked(st'.chans[ch])
  {
    hide Core, ChansOk, ClosedOk, Drain, FrameOk, NoRefs;
    if ch in st.chans && !st.chans[ch].closed {
      var st1 := PutChan(st, ch, st.chans[ch].(closed := true));
      CloseStart(st, t, ch);
      DrainSafe(st1, t, ch);
      ReturnToSafe(st, Drain(st1, ch).value, t, Unit);
    }
  }
}
