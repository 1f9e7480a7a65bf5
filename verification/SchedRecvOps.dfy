// Receiving, selecting and resuming from a channel keep the invariant and reach no undefined
// behaviour.
module SchedRecvOps {
  import opened Common
  import opened SchedState
  import opened SchedSteps
  import opened SchedMachine
  import opened SchedInvariant
  import opened SchedCore
  import opened SchedLife
  import opened SchedChans
  import opened SchedPollOps
  import opened SchedScopeOps
  import opened SchedChanOps

  // ---- chan_poll_take ----

  // What a poll gives a running task t: its own record is untouched, and nothing at all
  // changes when the channel has nothing for it.
  ghost predicate Polled(st: State, t: TaskId, ch: ChanId, o: Outcome<(State, Taken)>)
    requires ch in st.chans && t in st.tasks
  {
    && o.Next? && Inv(o.value.0) && o.value.0.cur == Some(t) && o.value.0.chans.Keys == st.chans.Keys
    && t in o.value.0.tasks && o.value.0.tasks[t] == st.tasks[t]
    && (o.value.1.NotReady? ==> o.value.0 == st && st.chans[ch].buf == [] &&
                                st.chans[ch].sendq == [] && !st.chans[ch].closed)
  }

  // The channel after its oldest value is handed out, the first parked sender's value taking
  // the freed slot.
  function Taken1(c: Chan, pm: Msg): Chan
    requires c.buf != [] || c.sendq != []
  {
    if c.sendq == [] then
      c.(buf := c.buf[1..], delivered := c.delivered + [c.buf[0]])
    else if c.buf != [] then
      c.(buf := c.buf[1..] + [pm], sendq := c.sendq[1..],
         delivered := c.delivered + [c.buf[0]])
    else
      c.(sendq := c.sendq[1..], delivered := c.delivered + [pm])
  }

  lemma ClosedKept(st: State, st': State, ch: ChanId)
    requires ClosedOk(st) && ch in st.chans && ch in st'.chans
    requires st'.chans == st.chans[ch := st'.chans[ch]]
    requires st'.chans[ch].closed == st.chans[ch].closed
    requires st.chans[ch].closed ==>
               && st'.chans[ch].sendq == st.chans[ch].sendq
               && st'.chans[ch].recvq == st.chans[ch].recvq
               && st'.chans[ch].selq == st.chans[ch].selq
    ensures ClosedOk(st')
  {
  }

  lemma PollBuffer(st: State, t: TaskId, ch: ChanId)
    requires Ready(st, t) && ch in st.chans
    requires st.chans[ch].buf != [] && st.chans[ch].sendq == []
    ensures Polled(st, t, ch, PollTake(st, ch))
  {
    hide Core, ClosedOk;
    RunningFacts(st, t);
    assert ChanOk(st, ch, {});
    hide ChansOk, FrameOk, NoRefs;
    var c := st.chans[ch];
    var st' := PutChan(st, ch, Taken1(c, c.buf[0]));
    assert st.tasks == st.tasks[t := st.tasks[t]];
    OwnChanStep(st, st', t, ch);
    ClosedKept(st, st', ch);
  }

  // The sender at the head of the queue is parked with its value.
  lemma SenderHolds(st: State, ch: ChanId)
    requires Sound(st) && ch in st.chans && st.chans[ch].sendq != []
    ensures var p := st.chans[ch].sendq[0];
      && Alive(st, p) && st.tasks[p].pending.Some? && p !in st.rq && st.cur != Some(p)
      && st.tasks[p].park == OnChan(ch, true)
    ensures var c := st.chans[ch];
      ShapeOk(c) && |c.buf| == c.cap && c.recvq == [] && c.selq == []
  {
    hide Core, ChansOk;
    HeadParked(st, ch, true);
    ParkedOnChan(st, st.chans[ch].sendq[0]);
  }

  lemma PopSenderIs(st: State, ch: ChanId, c1: Chan)
    requires ch in st.chans && c1.sendq == st.chans[ch].sendq && c1.sendq != []
    requires var p := c1.sendq[0]; p in st.tasks && st.tasks[p].pending.Some? && p !in st.rq
    ensures var p := c1.sendq[0];
      PopSender(PutChan(st, ch, c1), ch) ==
        Next((Outcomed(PutChan(st, ch, c1.(sendq := c1.sendq[1..])), p,
                       st.tasks[p].(pending := None)),
              st.tasks[p].pending.value))
  {
    var p := c1.sendq[0];
    var st1 := PutChan(PutChan(st, ch, c1), ch, c1.(sendq := c1.sendq[1..]));
    assert st1 == PutChan(st, ch, c1.(sendq := c1.sendq[1..])) by {
      assert st.chans[ch := c1][ch := c1.(sendq := c1.sendq[1..])] ==
             st.chans[ch := c1.(sendq := c1.sendq[1..])];
    }
    WakeIs(st1, p, st.tasks[p].(pending := None));
  }

  lemma PollSender(st: State, t: TaskId, ch: ChanId)
    requires Ready(st, t) && ch in st.chans && st.chans[ch].sendq != []
    ensures Polled(st, t, ch, PollTake(st, ch))
  {
    hide Core, ClosedOk, ChansOk, FrameOk, NoRefs, PopSender;
    SenderHolds(st, ch);
    var c := st.chans[ch];
    var p := c.sendq[0];
    StillRunning(st, t, p);
    var pm := st.tasks[p].pending.value;
    var y := st.tasks[p].(pending := None);
    var c' := Taken1(c, pm);
    var st' := Outcomed(st, p, y).(chans := st.chans[ch := c']);
    HeadWoken(st, ch, true, y, c');
    SenderOpen(st, ch);
    OneOpen(st, st', ch);
    PollSenderIs(st, ch, pm);
  }

  lemma SenderOpen(st: State, ch: ChanId)
    requires ClosedOk(st) && ch in st.chans && st.chans[ch].sendq != []
    ensures !st.chans[ch].closed
  {
  }

  lemma PollSenderIs(st: State, ch: ChanId, pm: Msg)
    requires ch in st.chans && st.chans[ch].sendq != []
    requires var p := st.chans[ch].sendq[0];
      p in st.tasks && st.tasks[p].pending == Some(pm) && p !in st.rq
    ensures var c := st.chans[ch];
      PollTake(st, ch) ==
        Next((Outcomed(st, c.sendq[0], st.tasks[c.sendq[0]].(pending := None))
                .(chans := st.chans[ch := Taken1(c, pm)]),
              Item(if c.buf != [] then c.buf[0] else pm)))
  {
    hide PopSender, Wake;
    var c := st.chans[ch];
    var c1 := if c.buf != [] then c.(buf := c.buf[1..], delivered := c.delivered + [c.buf[0]])
              else c;
    PopSenderIs(st, ch, c1);
    assert st.chans[ch := c] == st.chans;
    var c2 := c1.(sendq := c1.sendq[1..]);
    assert st.chans[ch := c2][ch := Taken1(c, pm)] == st.chans[ch := Taken1(c, pm)];
  }

  lemma PollTakeSafe(st: State, t: TaskId, ch: ChanId)
    requires Ready(st, t) && ch in st.chans
    ensures Polled(st, t, ch, PollTake(st, ch))
  {
    hide Inv;
    if st.chans[ch].sendq != [] {
      hide PollTake;
      PollSender(st, t, ch);
    } else if st.chans[ch].buf != [] {
      hide PollTake;
      PollBuffer(st, t, ch);
    }
  }

  // ---- Receive ----

  lemma RecvParks(st: State, t: TaskId, ch: ChanId)
    requires Ready(st, t) && ch in st.chans && !st.chans[ch].closed
    requires st.chans[ch].buf == [] && st.chans[ch].sendq == []
    ensures RecvOp(st, t, ch).Next? && Inv(RecvOp(st, t, ch).value)
  {
    hide Core, ClosedOk;
    RunningFacts(st, t);
    assert ChanOk(st, ch, {});
    hide ChansOk, NoRefs;
    var st' := RecvOp(st, t, ch).value;
    assert FrameOk(st', t);
    hide FrameOk;
    OwnChanStep(st, st', t, ch);
    OneOpen(st, st', ch);
  }

  lemma RecvSafe(st: State, t: TaskId, ch: ChanId)
    requires Ready(st, t)
    ensures Safe(RecvOp(st, t, ch)) && (RecvOp(st, t, ch).Abort? <==> ch !in st.chans)
  {
    hide Core, ChansOk, ClosedOk, PollTake, ReturnTo;
    if ch in st.chans {
      PollTakeSafe(st, t, ch);
      var (st1, k) := PollTake(st, ch).value;
      if k.NotReady? {
        RecvParks(st, t, ch);
      } else {
        ReturnToSafe(st, st1, t, Received(AsRecv(k)));
      }
    }
  }

  // ---- Continuing with what woke the task ----

  lemma ResumeSendSafe(st: State, t: TaskId)
    requires Inv(st) && st.cur == Some(t) && t in st.tasks && st.tasks[t].frame.InSend?
    ensures Safe(ResumeSend(st, t))
  {
    hide Core, ChansOk, ClosedOk, Context;
    OwnFacts(st, t);
    if !st.tasks[t].closedWake {
      ReturnSafe(st, t, st.tasks[t].(frame := Running, ret := Unit));
    }
  }

  lemma ResumeRecvSafe(st: State, t: TaskId)
    requires Inv(st) && st.cur == Some(t) && t in st.tasks && st.tasks[t].frame.InRecv?
    ensures ResumeRecv(st, t).Next? && Inv(ResumeRecv(st, t).value)
  {
    hide Core, ChansOk, ClosedOk, Context;
    OwnFacts(st, t);
    var (x, r) := TakeDelivery(st.tasks[t]).value;
    ReturnSafe(st, t, x.(ret := Received(r)));
  }

  lemma ResumeSelectSafe(st: State, t: TaskId)
    requires Inv(st) && st.cur == Some(t) && t in st.tasks && st.tasks[t].frame.InSelect?
    ensures ResumeSelect(st, t).Next? && Inv(ResumeSelect(st, t).value)
  {
    hide Core, ChansOk, ClosedOk, Context;
    OwnFacts(st, t);
    var (x, r) := TakeDelivery(st.tasks[t]).value;
    ReturnSafe(st, t, x.(ret := Selected(x.fired, r)));
  }

  // ---- Select ----

  // The scan stops at the first channel with something to take, having changed nothing
  // before it.
  lemma {:induction false} ScanSafe(st: State, t: TaskId, chs: seq<ChanId>, i: nat)
    requires Ready(st, t) && i <= |chs| && forall j :: 0 <= j < |chs| ==> chs[j] in st.chans
    ensures var o := Scan(st, chs, i);
      && o.Next? && Inv(o.value.0) && o.value.0.cur == Some(t)
      && t in o.value.0.tasks && o.value.0.tasks[t] == st.tasks[t]
      && (if o.value.2.NotReady? then
            && o.value.0 == st
            && (forall j :: i <= j < |chs| ==>
                 var c := st.chans[chs[j]]; c.buf == [] && c.sendq == [] && !c.closed)
          else
            && i <= o.value.1 < |chs|
            && PollTake(st, chs[o.value.1]) == Next((o.value.0, o.value.2))
            && (forall j :: i <= j < o.value.1 ==>
                 var c := st.chans[chs[j]]; c.buf == [] && c.sendq == [] && !c.closed))
    decreases |chs| - i
  {
    hide Core, ChansOk, ClosedOk, PollTake;
    if i < |chs| {
      PollTakeSafe(st, t, chs[i]);
      if PollTake(st, chs[i]).value.1.NotReady? {
        ScanSafe(st, t, chs, i + 1);
      }
    }
  }

  // A task that is not on a channel has no registration anywhere.
  lemma NoRegs(st: State, t: TaskId, ch: ChanId)
    requires ChansOk(st, {}) && ch in st.chans && Alive(st, t) && st.tasks[t].park.NotParked?
    ensures NoDup(st.chans[ch].selq) && ShapeOk(st.chans[ch])
    ensures forall w :: w in st.chans[ch].selq ==> w.task != t
    ensures forall w :: w in st.chans[ch].selq ==> Alive(st, w.task)
  {
    assert ChanOk(st, ch, {});
  }

  lemma SelectPark(st: State, t: TaskId, chs: seq<ChanId>)
    requires Ready(st, t) && chs != [] && forall j :: 0 <= j < |chs| ==> chs[j] in st.chans
    requires forall j :: 0 <= j < |chs| ==>
               var c := st.chans[chs[j]]; c.buf == [] && c.sendq == [] && !c.closed
    ensures Register(st.chans, t, chs, 0).Next?
    ensures var chans := Register(st.chans, t, chs, 0).value;
      var x := st.tasks[t].(regs := chs, park := OnSelect, frame := InSelect);
      Inv(Put(st, t, x).(chans := chans, cur := None))
  {
    hide Core, ChansOk, ClosedOk, ShapeOk;
    RunningFacts(st, t);
    hide NoRefs;
    forall ch | ch in st.chans
      ensures NoDup(st.chans[ch].selq) && ShapeOk(st.chans[ch])
      ensures forall w :: w in st.chans[ch].selq ==> w.task != t
    {
      NoRegs(st, t, ch);
    }
    RegisterEffect(st.chans, t, chs, 0);
    var chans := Register(st.chans, t, chs, 0).value;
    var x := st.tasks[t].(regs := chs, park := OnSelect, frame := InSelect);
    var st' := Put(st, t, x).(chans := chans, cur := None);
    SelectParkCore(st, t, x, chans);
    SelectParkMove(st, t, chs, chans);
    hide SelectMove;
    ChansSelect(st, st', t, {}, {});
    SelectParkClosed(st, t, chs, chans);
  }

  lemma SelectParkCore(st: State, t: TaskId, x: Task, chans: map<ChanId, Chan>)
    requires Ready(st, t) && chans.Keys == st.chans.Keys
    requires x == st.tasks[t].(regs := x.regs, park := OnSelect, frame := InSelect) && x.regs != []
    ensures Core(Put(st, t, x).(chans := chans, cur := None), {})
  {
    hide Core, ChansOk, ClosedOk;
    RunningFacts(st, t);
    var st' := Put(st, t, x).(chans := chans, cur := None);
    assert FrameOk(st', t);
    hide FrameOk;
    assert OneTask(st, st', t, {});
    hide OneTask;
    CoreOneTask(st, st', t, {}, {});
  }

  // What registration left: the channels as they were, with t's entries at the end.
  ghost predicate RegisteredAll(st: State, t: TaskId, chs: seq<ChanId>, chans: map<ChanId, Chan>) {
    && chans.Keys == st.chans.Keys
    && forall ch :: ch in st.chans ==>
         && chans[ch] == st.chans[ch].(selq := chans[ch].selq)
         && NoDup(chans[ch].selq)
         && (forall w: SelReg :: w in chans[ch].selq <==>
               || w in st.chans[ch].selq
               || (w.task == t && w.index < |chs| && chs[w.index] == ch))
  }

  lemma SelectParkMove(st: State, t: TaskId, chs: seq<ChanId>, chans: map<ChanId, Chan>)
    requires ChansOk(st, {}) && Alive(st, t) && st.tasks[t].park.NotParked?
    requires forall j :: 0 <= j < |chs| ==> chs[j] in st.chans
    requires forall j :: 0 <= j < |chs| ==>
               var c := st.chans[chs[j]]; c.buf == [] && c.sendq == []
    requires RegisteredAll(st, t, chs, chans)
    ensures var x := st.tasks[t].(regs := chs, park := OnSelect, frame := InSelect);
      SelectMove(st, Put(st, t, x).(chans := chans, cur := None), t, {}, {})
  {
    hide ChansOk, ShapeOk;
    forall ch | ch in st.chans
      ensures ShapeOk(chans[ch])
      ensures forall w :: w in st.chans[ch].selq ==> w.task != t
    {
      NoRegs(st, t, ch);
      assert chans[ch] == st.chans[ch].(selq := chans[ch].selq);
      RegisteredShape(st.chans[ch], chans[ch], t, chs, ch);
    }
    hide RegisteredAll;
    SelectParkIs(st, t, chs, chans);
  }

  lemma SelectParkIs(st: State, t: TaskId, chs: seq<ChanId>, chans: map<ChanId, Chan>)
    requires Alive(st, t) && st.tasks[t].park.NotParked? && RegisteredAll(st, t, chs, chans)
    requires forall j :: 0 <= j < |chs| ==> chs[j] in st.chans
    requires forall ch :: ch in st.chans ==>
               ShapeOk(chans[ch]) && forall w :: w in st.chans[ch].selq ==> w.task != t
    ensures var x := st.tasks[t].(regs := chs, park := OnSelect, frame := InSelect);
      SelectMove(st, Put(st, t, x).(chans := chans, cur := None), t, {}, {})
  {
    hide ShapeOk;
  }

  lemma RegisteredShape(c: Chan, c': Chan, t: TaskId, chs: seq<ChanId>, ch: ChanId)
    requires ShapeOk(c) && c' == c.(selq := c'.selq)
    requires forall w: SelReg :: w in c'.selq <==>
               w in c.selq || (w.task == t && w.index < |chs| && chs[w.index] == ch)
    requires ch in chs ==> c.buf == [] && c.sendq == []
    ensures ShapeOk(c')
  {
    if c'.selq != [] {
      assert c'.selq[0] in c'.selq;
    }
  }

  lemma SelectParkClosed(st: State, t: TaskId, chs: seq<ChanId>, chans: map<ChanId, Chan>)
    requires ClosedOk(st) && RegisteredAll(st, t, chs, chans)
    requires forall j :: 0 <= j < |chs| ==> chs[j] in st.chans && !st.chans[chs[j]].closed
    requires t in st.tasks
    ensures var x := st.tasks[t].(regs := chs, park := OnSelect, frame := InSelect);
      ClosedOk(Put(st, t, x).(chans := chans, cur := None))
  {
    forall ch | ch in chans && chans[ch].closed ensures chans[ch].selq == [] {
      NoEntries(chans[ch].selq);
    }
  }

  lemma NoEntries(q: seq<SelReg>)
    requires forall w :: w !in q
    ensures q == []
  {
    HasEntry(q);
  }

  lemma HasEntry(q: seq<SelReg>)
    ensures q != [] ==> exists w :: w in q
  {
    assert q != [] ==> q[0] in q;
  }

  lemma SelectSafe(st: State, t: TaskId, chs: seq<ChanId>)
    requires Ready(st, t)
    ensures Safe(Select(st, t, chs))
    ensures Select(st, t, chs).Abort? <==>
              chs == [] || exists i :: 0 <= i < |chs| && chs[i] !in st.chans
  {
    hide Core, ChansOk, ClosedOk, Scan, Register, ReturnTo;
    if chs != [] && forall i :: 0 <= i < |chs| ==> chs[i] in st.chans {
      ScanSafe(st, t, chs, 0);
      var (st1, i, k) := Scan(st, chs, 0).value;
      if k.NotReady? {
        SelectPark(st, t, chs);
      } else {
        ReturnToSafe(st, st1, t, Selected(i, AsRecv(k)));
      }
    }
  }
}
