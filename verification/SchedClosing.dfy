// Who a close wakes, with what, and what it leaves alone.
module SchedClosing {
  import opened Common
  import opened SchedState
  import opened SchedSteps
  import opened SchedMachine
  import opened SchedInvariant
  import opened SchedLife
  import opened SchedChans
  import opened SchedPollOps
  import opened SchedDrop
  import opened SchedScopeOps
  import opened SchedCancel
  import opened SchedChanOps
  import opened SchedCloseOps
  import opened SchedTheorems

  // ---- The select queue as tasks ----

  // The selects of a queue in the order of their first registration.
  ghost function Selects(q: seq<SelReg>): seq<TaskId>
    decreases |q|
  {
    if q == [] then []
    else
      SelShorter(q[1..], {q[0].task});
      [q[0].task] + Selects(SelWithout(q[1..], {q[0].task}))
  }

  // The position of u's first registration.
  ghost function FirstIndex(q: seq<SelReg>, u: TaskId): nat {
    if q == [] then 0 else if q[0].task == u then q[0].index else FirstIndex(q[1..], u)
  }

  ghost function SelTasks(q: seq<SelReg>): set<TaskId> {
    set w | w in q :: w.task
  }

  lemma {:induction false} SelectsMembers(q: seq<SelReg>)
    ensures forall u :: u in Selects(q) <==> u in SelTasks(q)
    decreases |q|
  {
    if q != [] {
      var t := q[0].task;
      SelShorter(q[1..], {t});
      SelectsMembers(SelWithout(q[1..], {t}));
      SelWithoutMembers(q[1..], {t});
      forall u ensures u in Selects(q) <==> u in SelTasks(q) {
        if u in SelTasks(q) && u != t {
          var w :| w in q && w.task == u;
          assert w in SelWithout(q[1..], {t});
        }
        if u in SelTasks(SelWithout(q[1..], {t})) {
          var w :| w in SelWithout(q[1..], {t}) && w.task == u;
          assert w in q;
        }
      }
    }
  }

  lemma {:induction false} FirstIndexKept(q: seq<SelReg>, t: TaskId, u: TaskId)
    requires u != t
    ensures FirstIndex(SelWithout(q, {t}), u) == FirstIndex(q, u)
  {
    if q != [] {
      FirstIndexKept(q[1..], t, u);
      if q[0].task != t {
        assert SelWithout(q, {t})[1..] == SelWithout(q[1..], {t});
      }
    }
  }

  // It is the index of a registration of u.
  lemma {:induction false} FirstIndexIs(q: seq<SelReg>, u: TaskId)
    requires u in SelTasks(q)
    ensures SelReg(u, FirstIndex(q, u)) in q
  {
    if q[0].task == u {
      assert q[0] == SelReg(u, FirstIndex(q, u));
    } else {
      var w :| w in q && w.task == u;
      assert w in q[1..];
      FirstIndexIs(q[1..], u);
    }
  }

  // ---- The effect ----

  // Everyone parked on the channel, in the order a close reaches them.
  ghost function Audience(c: Chan): seq<TaskId> {
    c.recvq + c.sendq + Selects(c.selq)
  }

  // y is x told of the close: runnable, with no more than the news and, for a select, the place
  // of the channel in its list.
  predicate Told(x: Task, y: Task, place: nat) {
    y == if x.park.OnSelect?
         then x.(closedWake := true, park := NotParked, inRq := true, fired := place, regs := [])
         else x.(closedWake := true, park := NotParked, inRq := true)
  }

  ghost predicate TasksTold(st: State, st': State, c: Chan, ws: seq<TaskId>) {
    && st'.tasks.Keys == st.tasks.Keys
    && (forall u :: u in ws ==> u in st.tasks && Told(st.tasks[u], st'.tasks[u], FirstIndex(c.selq, u)))
    && (forall u :: u in st.tasks && u !in ws ==> st'.tasks[u] == st.tasks[u])
  }

  ghost predicate ChansTold(st: State, st': State, ch: ChanId)
    requires ch in st.chans
  {
    var c := st.chans[ch];
    && st'.chans.Keys == st.chans.Keys
    && st'.chans[ch] == c.(recvq := [], sendq := [], selq := [])
    && (forall ch' :: ch' in st.chans && ch' != ch ==>
          st'.chans[ch'] == st.chans[ch'].(selq := SelWithout(st.chans[ch'].selq, SelTasks(c.selq))))
  }

  ghost predicate SameElse(st: State, st': State) {
    && st'.io == st.io && st'.fds == st.fds && st'.timers == st.timers
    && st'.scopes == st.scopes && st'.cur == st.cur && st'.next == st.next
  }

  // The queues of ch have been emptied, and everyone on them told.
  ghost predicate Emptied(st: State, st': State, ch: ChanId) {
    && ch in st.chans
    && var c := st.chans[ch];
    && NoDup(Audience(c)) && st'.rq == st.rq + Audience(c)
    && TasksTold(st, st', c, Audience(c)) && ChansTold(st, st', ch) && SameElse(st, st')
  }

  // ---- One wake, and the rest after it ----

  // The first of the audience, r, has been told and is off every queue.
  ghost predicate OneTold(st: State, st1: State, ch: ChanId, r: TaskId) {
    && ch in st.chans && ch in st1.chans && r in st.tasks && r in st1.tasks
    && var c, c1 := st.chans[ch], st1.chans[ch];
    && st1.rq == st.rq + [r] && st1.tasks == st.tasks[r := st1.tasks[r]]
    && Told(st.tasks[r], st1.tasks[r], FirstIndex(c.selq, r))
    && Audience(c) == [r] + Audience(c1) && r !in Audience(c1)
    && (forall u :: u in Audience(c1) ==> FirstIndex(c1.selq, u) == FirstIndex(c.selq, u))
    && c1 == c.(recvq := c1.recvq, sendq := c1.sendq, selq := c1.selq)
    && SelWithoutTo(st, st1, ch)
    && SameElse(st, st1)
  }

  ghost predicate SelWithoutTo(st: State, st1: State, ch: ChanId)
    requires ch in st.chans && ch in st1.chans
  {
    && st1.chans.Keys == st.chans.Keys
    && forall ch' :: ch' in st.chans && ch' != ch ==>
         && st1.chans[ch'] == st.chans[ch'].(selq := st1.chans[ch'].selq)
         && SelWithout(st1.chans[ch'].selq, SelTasks(st1.chans[ch].selq))
            == SelWithout(st.chans[ch'].selq, SelTasks(st.chans[ch].selq))
  }

  lemma EmptiedAfter(st: State, st1: State, st': State, ch: ChanId, r: TaskId)
    requires OneTold(st, st1, ch, r) && Emptied(st1, st', ch)
    ensures Emptied(st, st', ch)
  {
    hide Audience, Selects, FirstIndex, SelTasks, SelWithout;
    var c, c1 := st.chans[ch], st1.chans[ch];
    assert st'.rq == st.rq + Audience(c) by {
      assert st.rq + [r] + Audience(c1) == st.rq + ([r] + Audience(c1));
    }
    assert NoDup(Audience(c)) by {
      NoDupSnoc(Audience(c1), r);
    }
    hide NoDup, SelWithoutTo, ChansTold, SameElse;
    ToldAfter(st, st1, st', c, c1, r);
    assert ChansTold(st, st', ch) && SameElse(st, st') by {
      ChansAfter(st, st1, st', ch, r);
    }
  }

  lemma ToldAfter(st: State, st1: State, st': State, c: Chan, c1: Chan, r: TaskId)
    requires r in st.tasks && r in st1.tasks && st1.tasks == st.tasks[r := st1.tasks[r]]
    requires Told(st.tasks[r], st1.tasks[r], FirstIndex(c.selq, r))
    requires Audience(c) == [r] + Audience(c1) && r !in Audience(c1)
    requires forall u :: u in Audience(c1) ==> FirstIndex(c1.selq, u) == FirstIndex(c.selq, u)
    requires TasksTold(st1, st', c1, Audience(c1))
    ensures TasksTold(st, st', c, Audience(c))
  {
    hide Audience, FirstIndex, Told;
    forall u | u in Audience(c)
      ensures u in st.tasks && Told(st.tasks[u], st'.tasks[u], FirstIndex(c.selq, u))
    {
      if u != r {
        assert u in Audience(c1);
      }
    }
  }

  lemma ChansAfter(st: State, st1: State, st': State, ch: ChanId, r: TaskId)
    requires OneTold(st, st1, ch, r) && ChansTold(st1, st', ch) && SameElse(st1, st')
    ensures ChansTold(st, st', ch) && SameElse(st, st')
  {
    hide Audience, FirstIndex, Told, SelTasks, SelWithout;
  }

  // With nobody left there is nothing to do.
  lemma {:induction false} NobodyToTell(st: State, ch: ChanId)
    requires ch in st.chans && !Parked(st.chans[ch])
    ensures Emptied(st, st, ch)
  {
    var c := st.chans[ch];
    assert SelTasks(c.selq) == {};
    forall ch' | ch' in st.chans
      ensures SelWithout(st.chans[ch'].selq, SelTasks(c.selq)) == st.chans[ch'].selq
    {
      SelWithoutNothing(st.chans[ch'].selq, {});
    }
  }

  // ---- Each kind of wake ----

  // What the channel invariant says of one channel's audience.
  lemma AudienceParked(st: State, ch: ChanId)
    requires ChansOk(st, {}) && ch in st.chans
    ensures var c := st.chans[ch];
      && NoDup(c.recvq) && NoDup(c.sendq)
      && (forall u :: u in c.recvq ==> u in st.tasks && st.tasks[u].park == OnChan(ch, false))
      && (forall u :: u in c.sendq ==> u in st.tasks && st.tasks[u].park == OnChan(ch, true))
      && (forall w :: w in c.selq ==> w.task in st.tasks && st.tasks[w.task].park == OnSelect)
  {
    assert ChanOk(st, ch, {});
  }

  lemma NotInAudience(c: Chan, r: TaskId)
    requires r !in c.recvq && r !in c.sendq && r !in SelTasks(c.selq)
    ensures r !in Audience(c)
  {
    SelectsMembers(c.selq);
  }

  // The head of the receive or the send queue of ch, r, is woken with the news.
  lemma HeadTold(st: State, ch: ChanId, r: TaskId, c1: Chan)
    requires ch in st.chans && r in st.tasks && !st.tasks[r].park.OnSelect?
    requires var c := st.chans[ch];
      && c1 == c.(recvq := c1.recvq, sendq := c1.sendq)
      && c.recvq + c.sendq == [r] + (c1.recvq + c1.sendq)
      && r !in c1.recvq && r !in c1.sendq && r !in SelTasks(c.selq)
    ensures OneTold(st, Outcomed(PutChan(st, ch, c1), r, st.tasks[r].(closedWake := true)), ch, r)
  {
    hide SelTasks, Selects, SelWithout, FirstIndex;
    var c := st.chans[ch];
    var st1 := Outcomed(PutChan(st, ch, c1), r, st.tasks[r].(closedWake := true));
    HeadAudience(c, c1, r);
  }

  lemma HeadAudience(c: Chan, c1: Chan, r: TaskId)
    requires c.recvq + c.sendq == [r] + (c1.recvq + c1.sendq) && c1.selq == c.selq
    requires r !in c1.recvq && r !in c1.sendq && r !in SelTasks(c.selq)
    ensures Audience(c) == [r] + Audience(c1) && r !in Audience(c1)
  {
    NotInAudience(c1, r);
    hide Selects;
    assert [r] + (c1.recvq + c1.sendq) + Selects(c.selq) == [r] + (c1.recvq + c1.sendq + Selects(c.selq));
  }

  lemma ReceiverTold(st: State, t: TaskId, ch: ChanId)
    requires Draining(st, t, ch) && st.chans[ch].recvq != []
    ensures CloseReceiver(st, ch).Next?
    ensures OneTold(st, CloseReceiver(st, ch).value, ch, st.chans[ch].recvq[0])
  {
    hide Core, ChansOk, FrameOk, NoRefs, SelTasks, OneTold;
    var c := st.chans[ch];
    var r := c.recvq[0];
    HeadParked(st, ch, false);
    ParkedOnChan(st, r);
    AudienceParked(st, ch);
    var c1 := c.(recvq := c.recvq[1..]);
    WakeIs(PutChan(st, ch, c1), r, st.tasks[r].(closedWake := true));
    NoDupTail(c.recvq);
    SelectParks1(st, ch, r);
    assert c.recvq + c.sendq == [r] + (c1.recvq + c1.sendq);
    HeadTold(st, ch, r, c1);
  }

  // A task parked on one channel is on no select queue.
  lemma SelectParks1(st: State, ch: ChanId, r: TaskId)
    requires r in st.tasks && !st.tasks[r].park.OnSelect? && ch in st.chans
    requires forall w :: w in st.chans[ch].selq ==> w.task in st.tasks && st.tasks[w.task].park == OnSelect
    ensures r !in SelTasks(st.chans[ch].selq)
  {
  }

  lemma SenderTold(st: State, t: TaskId, ch: ChanId)
    requires Draining(st, t, ch) && st.chans[ch].recvq == [] && st.chans[ch].sendq != []
    ensures CloseSender(st, ch).Next?
    ensures OneTold(st, CloseSender(st, ch).value, ch, st.chans[ch].sendq[0])
  {
    hide Core, ChansOk, FrameOk, NoRefs, SelTasks, OneTold;
    var c := st.chans[ch];
    var p := c.sendq[0];
    HeadParked(st, ch, true);
    ParkedOnChan(st, p);
    AudienceParked(st, ch);
    var x := st.tasks[p];
    var c1 := c.(sendq := c.sendq[1..]);
    WakeIs(PutChan(st, ch, c1), p, x.(closedWake := true));
    NoDupTail(c.sendq);
    SelectParks1(st, ch, p);
    assert c.recvq + c.sendq == [p] + (c1.recvq + c1.sendq);
    HeadTold(st, ch, p, c1);
  }

  // A firing changes select queues only.
  lemma FireKeeps(st1: State, t: TaskId, index: nat)
    requires SelectFire(st1, t, index).Next?
    ensures var st2 := SelectFire(st1, t, index).value;
      && st2.chans.Keys == st1.chans.Keys
      && forall ch :: ch in st1.chans ==> st2.chans[ch] == st1.chans[ch].(selq := st2.chans[ch].selq)
  {
    hide UnlinkFrom;
    UnlinkKeeps(st1.chans, t, st1.tasks[t].regs, 0);
  }

  lemma SelectTold(st: State, t: TaskId, ch: ChanId)
    requires Draining(st, t, ch) && st.chans[ch].recvq == [] && st.chans[ch].sendq == []
    requires st.chans[ch].selq != []
    ensures CloseSelect(st, ch).Next?
    ensures OneTold(st, CloseSelect(st, ch).value, ch, st.chans[ch].selq[0].task)
  {
    hide Core, ChansOk, FrameOk, NoRefs, SelectFire, ChansLess, Selects, SelWithout, SelTasks;
    var w := st.chans[ch].selq[0];
    SelHead(st, ch);
    ParkedOnChan(st, w.task);
    RecvPending(st, w.task);
    var st1 := Put(st, w.task, st.tasks[w.task].(closedWake := true));
    assert st.chans[ch := st.chans[ch]] == st.chans;
    SelectWoken(st, st1, ch);
    FireKeeps(st1, w.task, w.index);
    FiredTold(st, st1, CloseSelect(st, ch).value, ch, w);
  }

  lemma FiredTold(st: State, st1: State, st2: State, ch: ChanId, w: SelReg)
    requires ch in st.chans && st.chans[ch].selq != [] && w == st.chans[ch].selq[0]
    requires st.chans[ch].recvq == [] && st.chans[ch].sendq == []
    requires w.task in st.tasks && st.tasks[w.task].park.OnSelect?
    requires st1 == Put(st, w.task, st.tasks[w.task].(closedWake := true))
    requires st2 == Outcomed(st, w.task, st1.tasks[w.task].(fired := w.index, regs := []))
                      .(chans := st2.chans)
    requires ChansLess(st1, st2, {w.task})
    requires forall ch' :: ch' in st1.chans ==>
               ch' in st2.chans && st2.chans[ch'] == st1.chans[ch'].(selq := st2.chans[ch'].selq)
    ensures OneTold(st, st2, ch, w.task)
  {
    var c, c1 := st.chans[ch], st2.chans[ch];
    hide SelTasks, Selects, SelWithout, FirstIndex, Audience;
    FiredQueues(st, st1, st2, ch, w);
    hide ChansLess, SelWithoutTo;
    FiredAudience(c, c1, w);
  }

  lemma FiredAudience(c: Chan, c1: Chan, w: SelReg)
    requires c.selq != [] && w == c.selq[0] && c.recvq == [] && c.sendq == []
    requires c1.recvq == [] && c1.sendq == [] && c1.selq == SelWithout(c.selq, {w.task})
    ensures Audience(c) == [w.task] + Audience(c1) && w.task !in Audience(c1)
    ensures FirstIndex(c.selq, w.task) == w.index
    ensures forall u :: u in Audience(c1) ==> FirstIndex(c1.selq, u) == FirstIndex(c.selq, u)
  {
    SelectsMembers(c1.selq);
    SelWithoutMembers(c.selq, {w.task});
    assert c1.selq == SelWithout(c.selq[1..], {w.task});
    assert [] + [] + Selects(c.selq) == Selects(c.selq);
    assert [] + [] + Selects(c1.selq) == Selects(c1.selq);
    forall u | u in Audience(c1) ensures FirstIndex(c1.selq, u) == FirstIndex(c.selq, u) && u != w.task {
      var v :| v in c1.selq && v.task == u;
      FirstIndexKept(c.selq, w.task, u);
    }
  }

  lemma FiredQueues(st: State, st1: State, st2: State, ch: ChanId, w: SelReg)
    requires ch in st.chans && w in st.chans[ch].selq && st1.chans == st.chans
    requires ChansLess(st1, st2, {w.task})
    requires forall ch' :: ch' in st1.chans ==>
               ch' in st2.chans && st2.chans[ch'] == st1.chans[ch'].(selq := st2.chans[ch'].selq)
    ensures ch in st2.chans && SelWithoutTo(st, st2, ch)
    ensures st2.chans[ch].selq == SelWithout(st.chans[ch].selq, {w.task})
  {
    assert ChanLess(st.chans[ch], st2.chans[ch], {w.task});
    var rest := SelTasks(st2.chans[ch].selq);
    SelWithoutMembers(st.chans[ch].selq, {w.task});
    assert SelTasks(st.chans[ch].selq) == {w.task} + rest by {
      TasksSplit(st.chans[ch].selq, w);
    }
    forall ch' | ch' in st.chans && ch' != ch
      ensures SelWithout(st2.chans[ch'].selq, rest)
              == SelWithout(st.chans[ch'].selq, SelTasks(st.chans[ch].selq))
    {
      assert ChanLess(st.chans[ch'], st2.chans[ch'], {w.task});
      SelWithoutTwice(st.chans[ch'].selq, {w.task}, rest);
    }
  }

  lemma TasksSplit(q: seq<SelReg>, w: SelReg)
    requires w in q
    ensures SelTasks(q) == {w.task} + SelTasks(SelWithout(q, {w.task}))
  {
    SelWithoutMembers(q, {w.task});
    forall u ensures u in SelTasks(q) <==> u in {w.task} + SelTasks(SelWithout(q, {w.task})) {
      if u in SelTasks(q) && u != w.task {
        var v :| v in q && v.task == u;
        assert v in SelWithout(q, {w.task});
      }
      if u in SelTasks(SelWithout(q, {w.task})) {
        var v :| v in SelWithout(q, {w.task}) && v.task == u;
        assert v in q;
      }
    }
  }

  // ---- The whole drain, and the close ----

  lemma {:induction false} DrainTells(st: State, t: TaskId, ch: ChanId)
    requires Draining(st, t, ch)
    ensures Drain(st, ch).Next? && Emptied(st, Drain(st, ch).value, ch)
    decreases QueueLen(st, ch)
  {
    hide CloseReceiver, CloseSender, CloseSelect, Core, ChansOk, FrameOk, Emptied, OneTold;
    var c := st.chans[ch];
    if !Parked(c) {
      NobodyToTell(st, ch);
    } else if c.recvq != [] {
      DrainReceiver(st, t, ch);
      ReceiverTold(st, t, ch);
      DrainTells(CloseReceiver(st, ch).value, t, ch);
      EmptiedAfter(st, CloseReceiver(st, ch).value, Drain(st, ch).value, ch, c.recvq[0]);
    } else if c.sendq != [] {
      DrainSender(st, t, ch);
      SenderTold(st, t, ch);
      DrainTells(CloseSender(st, ch).value, t, ch);
      EmptiedAfter(st, CloseSender(st, ch).value, Drain(st, ch).value, ch, c.sendq[0]);
    } else {
      DrainSelect(st, t, ch);
      SelectTold(st, t, ch);
      DrainTells(CloseSelect(st, ch).value, t, ch);
      EmptiedAfter(st, CloseSelect(st, ch).value, Drain(st, ch).value, ch, c.selq[0].task);
    }
  }

  // Parked on ch: in a receive, in a send, or in a select that names it.
  ghost predicate ParkedOn(st: State, u: TaskId, ch: ChanId) {
    && Alive(st, u)
    && var x := st.tasks[u];
    || x.park == OnChan(ch, false) || x.park == OnChan(ch, true)
    || (x.park == OnSelect && ch in x.regs)
  }

  // How the news reaches one task: a receiver or a select will return Closed, the select with a
  // place of ch in its list; a sender still holds its value and will find the close.
  ghost predicate Heard(st: State, st': State, u: TaskId, ch: ChanId)
    requires ch in st.chans && ch in st'.chans
  {
    && u in st.tasks && u in st'.tasks
    && var x, y := st.tasks[u], st'.tasks[u];
    && y == x.(closedWake := true, park := NotParked, inRq := true, fired := y.fired, regs := y.regs)
    && (match x.frame
        case InRecv(c) => c == ch && x.pending == None
        case InSelect => x.pending == None && y.fired < |x.regs| && x.regs[y.fired] == ch && y.regs == []
        case InSend(c) => c == ch && x.pending.Some?
        case _ => false)
  }

  // Everyone parked on the channel is ready, once each, receivers first, then
  // senders, then selects, and is told; the channel keeps its ring and its history but for
  // the values its senders held; other channels lose the selects told, and nothing else changes
  // but the closer's own return.
  ghost predicate CloseEffect(st: State, st': State, t: TaskId, ch: ChanId) {
    && t in st.tasks && ch in st.chans && var c := st.chans[ch];
    && NoDup(Audience(c)) && (forall u :: u in Audience(c) <==> ParkedOn(st, u, ch))
    && st'.rq == st.rq + Audience(c)
    && st'.chans.Keys == st.chans.Keys
    && (forall u :: u in Audience(c) ==> Heard(st, st', u, ch))
    && st'.tasks.Keys == st.tasks.Keys
    && (forall u :: u in st.tasks && u !in Audience(c) && u != t ==> st'.tasks[u] == st.tasks[u])
    && st'.tasks[t] == st.tasks[t].(frame := Running, ret := Unit)
    && st'.chans[ch] == c.(closed := true, recvq := [], sendq := [], selq := [])
    && (forall ch' :: ch' in st.chans && ch' != ch ==>
          st'.chans[ch'] == st.chans[ch'].(selq := SelWithout(st.chans[ch'].selq, SelTasks(c.selq))))
    && SameElse(st, st')
  }

  lemma CloseWakes(st: State, t: TaskId, ch: ChanId)
    requires Ready(st, t) && ch in st.chans && !st.chans[ch].closed
    ensures Close(st, t, ch).Next?
    ensures CloseEffect(st, Close(st, t, ch).value, t, ch)
  {
    hide Core, ChansOk, ClosedOk, Drain, FrameOk, NoRefs, Audience, Heard, ParkedOn;
    hide SelTasks, SelWithout, Told, FirstIndex;
    var st0 := PutChan(st, ch, st.chans[ch].(closed := true));
    CloseStart(st, t, ch);
    DrainTells(st0, t, ch);
    AudienceSame(st.chans[ch], st0.chans[ch]);
    AudienceIs(st, ch);
    var st1 := Drain(st0, ch).value;
    var st' := Close(st, t, ch).value;
    RunningNotParked(st, t, ch);
    AllHeard(st, st0, st', ch);
  }

  lemma AllHeard(st: State, st0: State, st': State, ch: ChanId)
    requires Sound(st) && ch in st.chans && ch in st'.chans && st0.tasks == st.tasks
    requires ch in st0.chans && st0.chans[ch] == st.chans[ch].(closed := true)
    requires forall u :: u in Audience(st0.chans[ch]) ==>
               u in st.tasks && u in st'.tasks
               && Told(st.tasks[u], st'.tasks[u], FirstIndex(st0.chans[ch].selq, u))
    ensures forall u :: u in Audience(st.chans[ch]) ==> Heard(st, st', u, ch)
  {
    hide Core, ChansOk, FrameOk, NoRefs, Audience, Heard, Told, FirstIndex;
    AudienceSame(st.chans[ch], st0.chans[ch]);
    forall u | u in Audience(st.chans[ch]) ensures Heard(st, st', u, ch) {
      ToldHeard(st, st', u, ch);
    }
  }

  lemma AudienceSame(c: Chan, c1: Chan)
    requires c1 == c.(closed := true)
    ensures Audience(c1) == Audience(c)
  {
  }

  lemma AudienceIs(st: State, ch: ChanId)
    requires ChansOk(st, {}) && ch in st.chans
    ensures forall u :: u in Audience(st.chans[ch]) <==> ParkedOn(st, u, ch)
  {
    hide Selects;
    assert ChanOk(st, ch, {});
    hide ChansOk;
    var c := st.chans[ch];
    SelectsMembers(c.selq);
    forall u ensures u in Audience(c) <==> ParkedOn(st, u, ch) {
      if u in SelTasks(c.selq) {
        var w :| w in c.selq && w.task == u;
      }
      if ParkedOn(st, u, ch) && st.tasks[u].park == OnSelect {
        var i :| 0 <= i < |st.tasks[u].regs| && st.tasks[u].regs[i] == ch;
        assert SelReg(u, i) in c.selq;
      }
    }
  }

  lemma RunningNotParked(st: State, t: TaskId, ch: ChanId)
    requires Core(st, {}) && st.cur == Some(t) && t in st.tasks && st.tasks[t].frame.Running?
    ensures !ParkedOn(st, t, ch)
  {
    hide Core, FrameOk, NoRefs;
    RunningFacts(st, t);
  }

  lemma ToldHeard(st: State, st': State, u: TaskId, ch: ChanId)
    requires Sound(st) && ch in st.chans && ch in st'.chans && u in Audience(st.chans[ch])
    requires u in st.tasks && u in st'.tasks
    requires Told(st.tasks[u], st'.tasks[u], FirstIndex(st.chans[ch].selq, u))
    ensures Heard(st, st', u, ch)
  {
    hide Core, ChansOk, FrameOk, NoRefs, Selects, SelTasks, FirstIndex;
    AudienceIs(st, ch);
    ParkedFrame(st, u, ch);
    QueuesOf(st, u, ch);
    if st.tasks[u].park.OnSelect? {
      FirstIndexIs(st.chans[ch].selq, u);
    }
  }

  // What the invariant says of a task parked on ch.
  lemma ParkedFrame(st: State, u: TaskId, ch: ChanId)
    requires Core(st, {}) && ParkedOn(st, u, ch)
    ensures !Woken(st, u)
    ensures var x := st.tasks[u];
      match x.park
      case OnChan(_, sender) =>
        && x.frame == (if sender then InSend(ch) else InRecv(ch))
        && (sender <==> x.pending.Some?)
      case _ => x.frame.InSelect? && x.pending == None
  {
    hide Core, Context, NoRefs;
    ParkedOnChan(st, u);
  }

  lemma QueuesOf(st: State, u: TaskId, ch: ChanId)
    requires ChansOk(st, {}) && ch in st.chans && ParkedOn(st, u, ch)
    ensures var c := st.chans[ch];
      match st.tasks[u].park
      case OnChan(_, sender) => sender ==> u in c.sendq
      case _ =>
        && u in SelTasks(c.selq)
        && (forall i: nat :: SelReg(u, i) in c.selq ==>
              i < |st.tasks[u].regs| && st.tasks[u].regs[i] == ch)
  {
    assert ChanOk(st, ch, {});
    if st.tasks[u].park.OnSelect? {
      var i :| 0 <= i < |st.tasks[u].regs| && st.tasks[u].regs[i] == ch;
      assert SelReg(u, i) in st.chans[ch].selq;
    }
  }
}
