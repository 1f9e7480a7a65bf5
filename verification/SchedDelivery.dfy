// What a receiver, a sender and a select get: the oldest value a channel owes, handed to the
// longest waiting receiver, and returned as it was sent.
module SchedDelivery {
  import opened Common
  import opened SchedState
  import opened SchedSteps
  import opened SchedMachine
  import opened SchedInvariant
  import opened SchedLife
  import opened SchedPollOps
  import opened SchedScopeOps
  import opened SchedChanOps
  import opened SchedRecvOps
  import opened SchedFlow

  // One value leaves ch, the oldest it owes; the rest stays in order.
  ghost predicate HandsOut(st: State, st': State, ch: ChanId) {
    && ch in st.chans && ch in st'.chans && Owed(st, ch) != []
    && st'.chans == st.chans[ch := st'.chans[ch]]
    && st'.chans[ch].delivered == st.chans[ch].delivered + [Owed(st, ch)[0]]
    && Owed(st', ch) == Owed(st, ch)[1..]
    && (var c := st.chans[ch];
        st'.chans[ch] == c.(buf := st'.chans[ch].buf, delivered := st'.chans[ch].delivered,
                            sendq := if c.sendq == [] then [] else c.sendq[1..]))
  }

  // With the value taken, the sender that has waited longest is ready, and will not be told of a
  // close.
  ghost predicate Relieves(st: State, st': State, ch: ChanId)
    requires ch in st.chans
  {
    var q := st.chans[ch].sendq;
    if q == [] then st'.rq == st.rq
    else
      && st'.rq == st.rq + [q[0]] && q[0] in st.tasks && q[0] in st'.tasks
      && st'.tasks[q[0]].pending == None && !st'.tasks[q[0]].closedWake
      && st'.tasks[q[0]].frame == InSend(ch)
  }

  ghost function Firstly(q: seq<TaskId>): set<TaskId> {
    if q == [] then {} else {q[0]}
  }

  // The records of d, the ready queue and the channels.
  ghost predicate Touches(st: State, st': State, d: set<TaskId>) {
    && st'.tasks.Keys == st.tasks.Keys && st'.cur == st.cur && SameElsewhere(st, st')
    && forall u :: u in st.tasks && u !in d ==> st'.tasks[u] == st.tasks[u]
  }

  // ---- chan_poll_take ----

  lemma HeadHeld(st: State, ch: ChanId)
    requires Sound(st) && ch in st.chans && st.chans[ch].sendq != []
    ensures var q := st.chans[ch].sendq;
      && q[0] in st.tasks && st.tasks[q[0]].pending.Some? && q[0] !in q[1..] && q[0] !in st.rq
      && (forall u :: u in q ==> u in st.tasks)
      && Held(st.tasks, q) == [st.tasks[q[0]].pending.value] + Held(st.tasks, q[1..])
  {
    hide Core, ChansOk;
    SenderHolds(st, ch);
    SendersParked(st, ch);
    NoDupTail(st.chans[ch].sendq);
  }

  lemma TakeFromSender(st: State, ch: ChanId)
    requires Sound(st) && ch in st.chans && st.chans[ch].sendq != []
    ensures PollTake(st, ch).Next?
    ensures var (st1, k) := PollTake(st, ch).value;
      HandsOut(st, st1, ch) && k == Item(Owed(st, ch)[0])
  {
    hide Core, ChansOk, PollTake;
    HeadHeld(st, ch);
    var c := st.chans[ch];
    var pm := st.tasks[c.sendq[0]].pending.value;
    PollSenderIs(st, ch, pm);
    var st1 := PollTake(st, ch).value.0;
    HeldFrame(st.tasks, st1.tasks, c.sendq[1..]);
    assert st1.chans[ch] == Taken1(c, pm);
    hide Held;
    if c.buf == [] {
      assert Owed(st, ch)[1..] == Held(st.tasks, c.sendq[1..]);
    } else {
      assert Owed(st, ch)[1..] == c.buf[1..] + [pm] + Held(st.tasks, c.sendq[1..]);
    }
  }

  lemma TakeFromRing(st: State, ch: ChanId)
    requires ch in st.chans && st.chans[ch].sendq == [] && st.chans[ch].buf != []
    ensures PollTake(st, ch).Next?
    ensures var (st1, k) := PollTake(st, ch).value;
      && HandsOut(st, st1, ch) && k == Item(Owed(st, ch)[0])
      && Relieves(st, st1, ch) && Touches(st, st1, {})
  {
    assert Held(st.tasks, []) == [];
    assert Owed(st, ch) == st.chans[ch].buf;
  }

  // A poll takes the oldest value owed, reports the end of a closed channel that owes nothing,
  // and otherwise changes nothing.
  lemma PollTakesOldest(st: State, ch: ChanId)
    requires Sound(st) && ch in st.chans
    ensures PollTake(st, ch).Next?
    ensures var (st1, k) := PollTake(st, ch).value;
      if Owed(st, ch) != [] then
        && HandsOut(st, st1, ch) && k == Item(Owed(st, ch)[0]) && Relieves(st, st1, ch)
        && Touches(st, st1, Firstly(st.chans[ch].sendq))
      else st1 == st && k == if st.chans[ch].closed then End else NotReady
  {
    hide Core, ChansOk, HandsOut, Relieves, Touches;
    if st.chans[ch].sendq != [] {
      hide PollTake;
      HeadHeld(st, ch);
      TakeFromSender(st, ch);
      SenderRelieved(st, ch);
    } else if st.chans[ch].buf != [] {
      hide PollTake;
      TakeFromRing(st, ch);
    }
  }

  lemma SenderRelieved(st: State, ch: ChanId)
    requires Sound(st) && ch in st.chans && st.chans[ch].sendq != []
    ensures PollTake(st, ch).Next?
    ensures var st1 := PollTake(st, ch).value.0;
      Relieves(st, st1, ch) && Touches(st, st1, Firstly(st.chans[ch].sendq))
  {
    hide Core, ChansOk, PollTake, Taken1;
    HeadHeld(st, ch);
    SenderFrame(st, ch);
    PollSenderIs(st, ch, st.tasks[st.chans[ch].sendq[0]].pending.value);
  }

  lemma SenderFrame(st: State, ch: ChanId)
    requires Sound(st) && ch in st.chans && st.chans[ch].sendq != []
    ensures var p := st.chans[ch].sendq[0];
      p in st.tasks && st.tasks[p].frame == InSend(ch) && !st.tasks[p].closedWake
  {
    hide Core, ChansOk, ScopesOk, Context;
    SenderHolds(st, ch);
    ParkedOnChan(st, st.chans[ch].sendq[0]);
  }

  // ---- Receive and select ----

  lemma {:induction false} HeldReturn(tasks: map<TaskId, Task>, t: TaskId, x: Task, q: seq<TaskId>)
    requires t in tasks && x.pending == tasks[t].pending
    ensures Held(tasks[t := x], q) == Held(tasks, q)
  {
    if q != [] {
      HeldReturn(tasks, t, x, q[1..]);
    }
  }

  lemma ReturnOwed(st: State, t: TaskId, r: Ret, ch: ChanId)
    requires t in st.tasks && ch in st.chans
    ensures ReturnTo(st, t, r).Next?
    ensures var st' := ReturnTo(st, t, r).value;
      st'.chans == st.chans && Owed(st', ch) == Owed(st, ch)
  {
    HeldReturn(st.tasks, t, st.tasks[t].(frame := Running, ret := r), st.chans[ch].sendq);
  }

  // A receive returns the oldest value the channel owes; or Closed when it owes nothing and is
  // closed; or parks at the end of the receivers.
  ghost predicate RecvEffect(st: State, st': State, t: TaskId, ch: ChanId)
    requires ch in st.chans
  {
    if Owed(st, ch) != [] then
      && HandsOut(st, st', ch) && Relieves(st, st', ch)
      && Answered(st, st', t, Received(Got(Owed(st, ch)[0].value)), Firstly(st.chans[ch].sendq))
    else if st.chans[ch].closed then
      st'.chans == st.chans && st'.rq == st.rq && Answered(st, st', t, Received(Closed), {})
    else
      && Suspends(st, st', t, InRecv(ch))
      && st'.chans == st.chans[ch := st.chans[ch].(recvq := st.chans[ch].recvq + [t])]
  }

  lemma RecvTakesOldest(st: State, t: TaskId, ch: ChanId)
    requires Ready(st, t) && ch in st.chans
    ensures RecvOp(st, t, ch).Next? && t in RecvOp(st, t, ch).value.tasks
    ensures RecvEffect(st, RecvOp(st, t, ch).value, t, ch)
  {
    hide Core, ChansOk, ClosedOk, PollTake, Owed, Relieves, Touches, Answered;
    PollTakesOldest(st, ch);
    PollTakeSafe(st, t, ch);
    NotSending(st, t, ch);
    TouchesNothing(st);
    var (st1, k) := PollTake(st, ch).value;
    if !k.NotReady? {
      hide ReturnTo;
      ReturnOwed(st1, t, Received(AsRecv(k)), ch);
      ReturnedValue(st, st1, t, Received(AsRecv(k)),
                    if Owed(st, ch) == [] then {} else Firstly(st.chans[ch].sendq), ch);
    }
  }

  // The caller returns after a step that left it alone.
  lemma ReturnedValue(st: State, st1: State, t: TaskId, r: Ret, d: set<TaskId>, ch: ChanId)
    requires t in st.tasks && st.cur == Some(t) && Touches(st, st1, d)
    requires st1.tasks[t] == st.tasks[t] && ch in st.chans && t !in st.chans[ch].sendq
    ensures ReturnTo(st1, t, r).Next?
    ensures var st' := ReturnTo(st1, t, r).value;
      && Answered(st, st', t, r, d) && st'.rq == st1.rq && st'.chans == st1.chans
      && (Relieves(st, st1, ch) ==> Relieves(st, st', ch))
  {
  }

  lemma NotSending(st: State, t: TaskId, ch: ChanId)
    requires Ready(st, t) && ch in st.chans
    ensures t !in st.chans[ch].sendq
  {
    hide Core, ClosedOk, FrameOk, NoRefs;
    RunningFacts(st, t);
    assert ChanOk(st, ch, {});
  }

  lemma TouchesNothing(st: State)
    ensures Touches(st, st, {})
  {
  }

  // A channel a select can take from at once.
  ghost predicate ReadyChan(st: State, ch: ChanId)
    requires ch in st.chans
  {
    Owed(st, ch) != [] || st.chans[ch].closed
  }

  lemma OwedNothing(st: State, ch: ChanId)
    requires Sound(st) && ch in st.chans
    ensures Owed(st, ch) == [] <==> st.chans[ch].buf == [] && st.chans[ch].sendq == []
  {
    hide Core, ChansOk;
    if st.chans[ch].sendq != [] {
      HeadHeld(st, ch);
    }
  }

  // The oldest value of ch, or its close, with its place i in the list.
  ghost predicate SelectTaken(st: State, st': State, t: TaskId, ch: ChanId, i: nat)
    requires ch in st.chans
  {
    if Owed(st, ch) != [] then
      && HandsOut(st, st', ch) && Relieves(st, st', ch)
      && Answered(st, st', t, Selected(i, Got(Owed(st, ch)[0].value)),
                  Firstly(st.chans[ch].sendq))
    else
      st'.chans == st.chans && st'.rq == st.rq && Answered(st, st', t, Selected(i, Closed), {})
  }

  // A select that finds a channel ready takes from the one listed first, the oldest value it
  // owes, and returns that place in the list; only when none is ready does it park.
  lemma SelectTakesFirst(st: State, t: TaskId, chs: seq<ChanId>, i: nat)
    requires Ready(st, t)
    requires i < |chs| && forall j :: 0 <= j < |chs| ==> chs[j] in st.chans
    requires ReadyChan(st, chs[i]) && forall j :: 0 <= j < i ==> !ReadyChan(st, chs[j])
    ensures Select(st, t, chs).Next? && t in Select(st, t, chs).value.tasks
    ensures SelectTaken(st, Select(st, t, chs).value, t, chs[i], i)
  {
    hide Core, ChansOk, ClosedOk, PollTake, ReturnTo, Scan, Owed, Relieves, Touches, Answered;
    ScanSafe(st, t, chs, 0);
    var (st1, f, k) := Scan(st, chs, 0).value;
    ScanFirst(st, chs, i, f, k);
    PollTakesOldest(st, chs[i]);
    PollTakeSafe(st, t, chs[i]);
    ReturnOwed(st1, t, Selected(i, AsRecv(k)), chs[i]);
    NotSending(st, t, chs[i]);
    TouchesNothing(st);
    ReturnedValue(st, st1, t, Selected(i, AsRecv(k)),
                  if Owed(st, chs[i]) == [] then {} else Firstly(st.chans[chs[i]].sendq), chs[i]);
  }

  // The scan's place is the first ready one.
  lemma ScanFirst(st: State, chs: seq<ChanId>, i: nat, f: nat, k: Taken)
    requires Sound(st) && i < |chs| && forall j :: 0 <= j < |chs| ==> chs[j] in st.chans
    requires ReadyChan(st, chs[i]) && forall j :: 0 <= j < i ==> !ReadyChan(st, chs[j])
    requires if k.NotReady? then
        forall j :: 0 <= j < |chs| ==>
          var c := st.chans[chs[j]]; c.buf == [] && c.sendq == [] && !c.closed
      else
        && f < |chs| && PollTake(st, chs[f]).Next? && PollTake(st, chs[f]).value.1 == k
        && forall j :: 0 <= j < f ==>
             var c := st.chans[chs[j]]; c.buf == [] && c.sendq == [] && !c.closed
    ensures !k.NotReady? && f == i
  {
    hide Core, ChansOk, PollTake, Owed;
    OwedNothing(st, chs[i]);
    if !k.NotReady? && f < i {
      PollTakesOldest(st, chs[f]);
    }
  }

  // The places of ch in a list of channels, from place i on, as registrations of t.
  function Registrations(t: TaskId, chs: seq<ChanId>, i: nat, ch: ChanId): seq<SelReg>
    decreases |chs| - i
  {
    if i >= |chs| then []
    else (if chs[i] == ch then [SelReg(t, i)] else []) + Registrations(t, chs, i + 1, ch)
  }

  lemma {:induction false} RegisterAppends(chans: map<ChanId, Chan>, t: TaskId, chs: seq<ChanId>,
                                           i: nat)
    requires Register(chans, t, chs, i).Next?
    ensures var r := Register(chans, t, chs, i).value;
      && r.Keys == chans.Keys
      && forall ch :: ch in chans ==>
           r[ch] == chans[ch].(selq := chans[ch].selq + Registrations(t, chs, i, ch))
    decreases |chs| - i
  {
    if i < |chs| {
      var c := chans[chs[i]];
      var chans1 := chans[chs[i] := c.(selq := c.selq + [SelReg(t, i)])];
      RegisterAppends(chans1, t, chs, i + 1);
      var r := Register(chans1, t, chs, i + 1).value;
      forall ch | ch in chans
        ensures r[ch] == chans[ch].(selq := chans[ch].selq + Registrations(t, chs, i, ch))
      {
        MoreRegistrations(chans[ch].selq, t, chs, i, ch);
      }
    }
  }

  lemma MoreRegistrations(q: seq<SelReg>, t: TaskId, chs: seq<ChanId>, i: nat, ch: ChanId)
    requires i < |chs|
    ensures q + Registrations(t, chs, i, ch)
         == (if chs[i] == ch then q + [SelReg(t, i)] else q) + Registrations(t, chs, i + 1, ch)
  {
    var rest := Registrations(t, chs, i + 1, ch);
    assert q + ([SelReg(t, i)] + rest) == q + [SelReg(t, i)] + rest;
    assert [] + rest == rest;
  }

  ghost predicate SelectParked(st: State, st': State, t: TaskId, chs: seq<ChanId>) {
    && Suspends(st, st', t, InSelect) && st'.tasks[t].regs == chs
    && st'.chans.Keys == st.chans.Keys
    && forall ch :: ch in st.chans ==>
         st'.chans[ch] == st.chans[ch].(selq := st.chans[ch].selq + Registrations(t, chs, 0, ch))
  }

  // With no channel ready a select parks, registered last on every channel of its list, once per
  // place.
  lemma SelectParks(st: State, t: TaskId, chs: seq<ChanId>)
    requires Ready(st, t)
    requires chs != [] && forall j :: 0 <= j < |chs| ==> chs[j] in st.chans
    requires forall j :: 0 <= j < |chs| ==> !ReadyChan(st, chs[j])
    ensures Select(st, t, chs).Next?
    ensures SelectParked(st, Select(st, t, chs).value, t, chs)
  {
    hide Core, ClosedOk, PollTake, ReturnTo, Scan, Owed, Register, ChansOk, NoRefs, Touches;
    hide FrameOk, Relieves, HandsOut;
    RunningFacts(st, t);
    ScanSafe(st, t, chs, 0);
    var (st1, f, k) := Scan(st, chs, 0).value;
    if !k.NotReady? {
      PollTakesOldest(st, chs[f]);
    }
    SelectPark(st, t, chs);
    RegisterAppends(st.chans, t, chs, 0);
  }

  // ---- Send ----

  ghost predicate HandedOver(st: State, st': State, t: TaskId, ch: ChanId, v: int)
    requires ch in st.chans && st.chans[ch].recvq != []
  {
    var c, r := st.chans[ch], st.chans[ch].recvq[0];
    && r in st'.tasks && st'.tasks[r].frame == InRecv(ch)
    && st'.tasks[r].pending == Some(Msg(|c.log|, v)) && !st'.tasks[r].closedWake
    && st'.rq == st.rq + [r] && Answered(st, st', t, Unit, {r})
    && st'.chans == st.chans[ch := c.(recvq := c.recvq[1..], log := c.log + [v],
                                      delivered := c.delivered + [Msg(|c.log|, v)])]
  }

  // A send to waiting receivers hands its value to the one that has waited longest.
  lemma SendHandsOver(st: State, t: TaskId, ch: ChanId, v: int)
    requires Ready(st, t)
    requires ch in st.chans && !st.chans[ch].closed && st.chans[ch].recvq != []
    ensures Send(st, t, ch, v).Next?
    ensures Owed(st, ch) == [] && HandedOver(st, Send(st, t, ch, v).value, t, ch, v)
  {
    hide Core, ChansOk, ClosedOk, FrameOk, NoRefs;
    var r := st.chans[ch].recvq[0];
    HeadParked(st, ch, false);
    ParkedOnChan(st, r);
    ReceiverFrame(st, r, ch);
    ReceiverIdle(st, ch);
    StillRunning(st, t, r);
  }

  ghost predicate Queued(st: State, st': State, t: TaskId, ch: ChanId, v: int)
    requires ch in st.chans
  {
    var c := st.chans[ch];
    && ch in st'.chans && st'.chans == st.chans[ch := st'.chans[ch]] && t in st'.tasks
    && Owed(st', ch) == Owed(st, ch) + [Msg(|c.log|, v)]
    && st'.chans[ch] == c.(buf := st'.chans[ch].buf, sendq := st'.chans[ch].sendq,
                           log := c.log + [v])
    && (if |c.buf| < c.cap then
          Answered(st, st', t, Unit, {}) && st'.rq == st.rq && st'.chans[ch].sendq == []
        else
          Suspends(st, st', t, InSend(ch)) && st'.chans[ch].sendq == c.sendq + [t])
  }

  // With nobody waiting the value joins what the channel owes, at the end: in the ring while it
  // has room, and otherwise with its sender, which parks.
  lemma SendQueues(st: State, t: TaskId, ch: ChanId, v: int)
    requires Ready(st, t) && ch in st.chans && !st.chans[ch].closed
    requires st.chans[ch].recvq == [] && st.chans[ch].selq == []
    ensures Send(st, t, ch, v).Next?
    ensures Queued(st, Send(st, t, ch, v).value, t, ch, v)
  {
    hide Inv, Send;
    var c, m := st.chans[ch], Msg(|st.chans[ch].log|, v);
    QueueShape(st, t, ch);
    QueueTouches(st, t, ch, v);
    var st' := Send(st, t, ch, v).value;
    if |c.buf| < c.cap {
      assert Held(st.tasks, []) == [] == Held(st'.tasks, []);
    } else {
      HeldFrame(st.tasks, st'.tasks, c.sendq);
      HeldConcat(st'.tasks, c.sendq, [t]);
      assert Held(st'.tasks, [t]) == [m];
      hide Held;
      assert c.buf + (Held(st.tasks, c.sendq) + [m]) == c.buf + Held(st.tasks, c.sendq) + [m];
    }
  }

  lemma QueueTouches(st: State, t: TaskId, ch: ChanId, v: int)
    requires t in st.tasks && st.cur == Some(t) && ch in st.chans && !st.chans[ch].closed
    requires st.chans[ch].recvq == [] && st.chans[ch].selq == []
    ensures Send(st, t, ch, v).Next?
    ensures var st', c := Send(st, t, ch, v).value, st.chans[ch];
      var m := Msg(|c.log|, v);
      if |c.buf| < c.cap then
        && Answered(st, st', t, Unit, {}) && st'.rq == st.rq
        && st'.chans == st.chans[ch := c.(buf := c.buf + [m], log := c.log + [v])]
        && st'.tasks[t].pending == st.tasks[t].pending
      else
        && Suspends(st, st', t, InSend(ch)) && st'.tasks[t].pending == Some(m)
        && st'.chans == st.chans[ch := c.(sendq := c.sendq + [t], log := c.log + [v])]
  {
  }

  lemma QueueShape(st: State, t: TaskId, ch: ChanId)
    requires Ready(st, t) && ch in st.chans
    ensures |st.chans[ch].buf| < st.chans[ch].cap ==> st.chans[ch].sendq == []
    ensures forall u :: u in st.chans[ch].sendq ==> u in st.tasks && u != t
  {
    hide Core, ClosedOk, FrameOk, NoRefs;
    assert ChanOk(st, ch, {});
    RunningFacts(st, t);
  }

  lemma ReceiverFrame(st: State, r: TaskId, ch: ChanId)
    requires Core(st, {}) && Alive(st, r) && st.tasks[r].park == OnChan(ch, false)
    ensures st.tasks[r].frame == InRecv(ch) && !st.tasks[r].closedWake
    ensures r !in st.rq
  {
    hide ScopesOk, IdsOk, LinksOk, PollerOk, Context;
    assert PlaceOk(st, r, {});
    assert FrameOk(st, r);
  }

  lemma ReceiverIdle(st: State, ch: ChanId)
    requires ChansOk(st, {}) && ch in st.chans && st.chans[ch].recvq != []
    ensures Owed(st, ch) == []
  {
    assert ChanOk(st, ch, {});
  }

  // What a woken receiver or select returns is what it was handed, and it keeps none of it.
  lemma ReceiverReturns(st: State, t: TaskId)
    requires Inv(st) && st.cur == Some(t) && t in st.tasks
    requires st.tasks[t].frame.InRecv? || st.tasks[t].frame.InSelect?
    ensures Resume(st, t).Next?
    ensures var x, st' := st.tasks[t], Resume(st, t).value;
      && OnlyRecord(st, st', t) && st'.cur == st.cur && SameQueues(st, st')
      && st'.tasks[t].frame.Running? && st'.tasks[t].pending == None && !st'.tasks[t].closedWake
      && (x.closedWake <==> x.pending == None)
      && (var r := if x.closedWake then Closed else Got(x.pending.value.value);
          st'.tasks[t].ret == if x.frame.InRecv? then Received(r) else Selected(x.fired, r))
  {
    hide Core, ChansOk, ClosedOk;
    WokenOutcome(st, t);
  }

  lemma WokenOutcome(st: State, t: TaskId)
    requires Core(st, {}) && st.cur == Some(t) && t in st.tasks
    requires st.tasks[t].frame.InRecv? || st.tasks[t].frame.InSelect?
    ensures st.tasks[t].closedWake <==> st.tasks[t].pending == None
  {
    hide ScopesOk, IdsOk, LinksOk, PollerOk, Context, QueuesOk;
    assert PlaceOk(st, t, {});
    assert FrameOk(st, t);
  }
}
