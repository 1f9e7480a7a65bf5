// Every channel is a FIFO: what it has handed out, its ring and what its parked senders hold are,
// in that order, values sent to it in the order of the sends; and what is missing of the values
// sent went with a dropped sender or in a close.
module SchedFifo {
  import opened Common
  import opened SchedState
  import opened SchedSteps
  import opened SchedMachine
  import opened SchedInvariant
  import opened SchedLife
  import opened SchedPollOps
  import opened SchedDrop
  import opened SchedScopeOps
  import opened SchedDeadline
  import opened SchedCancel
  import opened SchedChanOps
  import opened SchedRecvOps
  import opened SchedRuns
  import opened SchedClosing
  import opened SchedTurns
  import opened SchedFlow
  import opened SchedDelivery

  // ---- What a step does to a channel ----

  // From st to st' the channel accepts the values of sent, in order, and loses those that the
  // senders of d hold.
  ghost predicate Moves(st: State, st': State, ch: ChanId, d: set<TaskId>, sent: seq<int>) {
    && ch in st.chans && ch in st'.chans
    && var c, c' := st.chans[ch], st'.chans[ch];
    && c'.log == c.log + sent && c.delivered <= c'.delivered
    && Flow(st', ch) == c.delivered + c.buf + Held(st.tasks, Without(c.sendq, d)) + Sent(|c.log|, sent)
  }

  function Sent(n: nat, vs: seq<int>): (r: seq<Msg>)
    ensures |r| == |vs|
  {
    seq(|vs|, i requires 0 <= i < |vs| => Msg(n + i, vs[i]))
  }

  ghost predicate Calms(st: State, st': State) {
    forall ch :: ch in st'.chans ==> Calm(st, st', ch)
  }

  lemma CalmMoves(st: State, st': State, ch: ChanId)
    requires Calm(st, st', ch)
    ensures Moves(st, st', ch, {}, [])
  {
    hide Held;
    WithoutNothing(st.chans[ch].sendq, {});
    assert Flow(st, ch) + [] == Flow(st, ch);
    assert st.chans[ch].delivered + Owed(st, ch)
        == st.chans[ch].delivered + st.chans[ch].buf + Held(st.tasks, st.chans[ch].sendq);
  }

  // A step that touches no channel, and no task but those of own, which are not sending.
  lemma QuietCalms(st: State, st': State, own: set<TaskId>)
    requires Inv(st) && Inv(st') && Quiet(st, st', own)
    requires forall t :: t in own && t in st.tasks ==> !st.tasks[t].park.OnChan?
    ensures Calms(st, st')
  {
    hide Core, ChansOk, ClosedOk;
    forall ch | ch in st'.chans ensures Calm(st, st', ch) {
      SendersParked(st', ch);
      SendersParked(st, ch);
      HeldFrame(st.tasks, st'.tasks, st.chans[ch].sendq);
    }
  }

  // ---- Sending ----

  lemma SendMoves(st: State, t: TaskId, ch: ChanId, v: int)
    requires Ready(st, t) && Send(st, t, ch, v).Next?
    ensures ch in st.chans && !st.chans[ch].closed
    ensures var st' := Send(st, t, ch, v).value;
      && st'.chans.Keys == st.chans.Keys && Moves(st, st', ch, {}, [v])
      && forall c :: c in st.chans && c != ch ==> Calm(st, st', c)
  {
    hide Core, ChansOk, ClosedOk, Send, Calm, Moves;
    SendSafe(st, t, ch, v);
    if st.chans[ch].recvq != [] {
      ReceiverMoves(st, t, ch, v);
    } else if st.chans[ch].selq != [] {
      SelectMoves(st, t, ch, v);
    } else {
      QueueMoves(st, t, ch, v);
    }
  }

  // The value joins the flow at its end.
  lemma Joined(st: State, st': State, ch: ChanId, v: int)
    requires ch in st.chans && ch in st'.chans && st.chans[ch].delivered <= st'.chans[ch].delivered
    requires st'.chans[ch].log == st.chans[ch].log + [v]
    requires Flow(st', ch) == Flow(st, ch) + [Msg(|st.chans[ch].log|, v)]
    ensures Moves(st, st', ch, {}, [v])
  {
    hide Held;
    WithoutNothing(st.chans[ch].sendq, {});
    assert st.chans[ch].delivered + Owed(st, ch)
        == st.chans[ch].delivered + st.chans[ch].buf + Held(st.tasks, st.chans[ch].sendq);
    assert Sent(|st.chans[ch].log|, [v]) == [Msg(|st.chans[ch].log|, v)];
  }

  // A channel with a receiver or a select parked on it owes nothing.
  lemma Idle(st: State, ch: ChanId)
    requires ChansOk(st, {}) && ch in st.chans
    requires st.chans[ch].recvq != [] || st.chans[ch].selq != []
    ensures st.chans[ch].buf == [] && st.chans[ch].sendq == []
  {
    assert ChanOk(st, ch, {});
  }

  lemma ReceiverMoves(st: State, t: TaskId, ch: ChanId, v: int)
    requires Ready(st, t) && ch in st.chans && !st.chans[ch].closed && st.chans[ch].recvq != []
    ensures Send(st, t, ch, v).Next?
    ensures var st' := Send(st, t, ch, v).value;
      && st'.chans.Keys == st.chans.Keys && Moves(st, st', ch, {}, [v])
      && forall c :: c in st.chans && c != ch ==> Calm(st, st', c)
  {
    hide Core, ChansOk, ClosedOk, FrameOk, NoRefs, Moves, Calm;
    var c := st.chans[ch];
    var r := c.recvq[0];
    RunningFacts(st, t);
    HeadParked(st, ch, false);
    ParkedOnChan(st, r);
    Idle(st, ch);
    var m := Msg(|c.log|, v);
    var c' := c.(recvq := c.recvq[1..], log := c.log + [m.value], delivered := c.delivered + [m]);
    WakeIs(PutChan(st, ch, c'), r, st.tasks[r].(pending := Some(m)));
    var st' := Send(st, t, ch, v).value;
    assert Flow(st', ch) == Flow(st, ch) + [m];
    Joined(st, st', ch, v);
    forall k | k in st.chans && k != ch ensures Calm(st, st', k) {
      StillCalm(st, st', k);
    }
  }

  lemma SelectMoves(st: State, t: TaskId, ch: ChanId, v: int)
    requires Ready(st, t) && ch in st.chans && !st.chans[ch].closed
    requires st.chans[ch].recvq == [] && st.chans[ch].selq != []
    ensures Send(st, t, ch, v).Next?
    ensures var st' := Send(st, t, ch, v).value;
      && st'.chans.Keys == st.chans.Keys && Moves(st, st', ch, {}, [v])
      && forall c :: c in st.chans && c != ch ==> Calm(st, st', c)
  {
    hide Core, ChansOk, ClosedOk, FrameOk, NoRefs, Moves, Calm, SelectFire;
    SendSafe(st, t, ch, v);
    var c := st.chans[ch];
    var w := c.selq[0];
    SelHead(st, ch);
    RunningFacts(st, t);
    Idle(st, ch);
    var m := Msg(|c.log|, v);
    var x := st.tasks[w.task].(pending := Some(m), closedWake := false);
    var st1 := Put(PutChan(st, ch, c.(log := c.log + [m.value], delivered := c.delivered + [m])),
                   w.task, x);
    FireKeeps(st1, w.task, w.index);
    FireOwn(st1, w.task, w.index);
    var st' := Send(st, t, ch, v).value;
    assert Flow(st', ch) == Flow(st, ch) + [m];
    Joined(st, st', ch, v);
    forall k | k in st.chans && k != ch ensures Calm(st, st', k) {
      StillCalm(st, st', k);
    }
  }

  lemma FireOwn(st: State, t: TaskId, index: nat)
    requires SelectFire(st, t, index).Next?
    ensures var st' := SelectFire(st, t, index).value;
      t in st.tasks && t in st'.tasks && st'.tasks == st.tasks[t := st'.tasks[t]]
  {
    hide UnlinkFrom;
  }

  lemma QueueMoves(st: State, t: TaskId, ch: ChanId, v: int)
    requires Ready(st, t) && ch in st.chans && !st.chans[ch].closed
    requires st.chans[ch].recvq == [] && st.chans[ch].selq == []
    ensures Send(st, t, ch, v).Next?
    ensures var st' := Send(st, t, ch, v).value;
      && st'.chans.Keys == st.chans.Keys && Moves(st, st', ch, {}, [v])
      && forall c :: c in st.chans && c != ch ==> Calm(st, st', c)
  {
    hide Core, ChansOk, ClosedOk, FrameOk, NoRefs, Moves, Calm, Held;
    SendQueues(st, t, ch, v);
    RunningFacts(st, t);
    var c, m, st' := st.chans[ch], Msg(|st.chans[ch].log|, v), Send(st, t, ch, v).value;
    assert c.delivered + (Owed(st, ch) + [m]) == c.delivered + Owed(st, ch) + [m];
    Joined(st, st', ch, v);
    forall k | k in st.chans && k != ch ensures Calm(st, st', k) {
      StillCalm(st, st', k);
    }
  }

  // ---- Receiving ----

  lemma PollCalms(st: State, ch: ChanId)
    requires Sound(st) && ch in st.chans
    ensures PollTake(st, ch).Next? && Calms(st, PollTake(st, ch).value.0)
    ensures PollTake(st, ch).value.0.chans.Keys == st.chans.Keys
  {
    hide Core, ChansOk, Held, PollTake;
    PollTakesOldest(st, ch);
    var st1 := PollTake(st, ch).value.0;
    PollTouches(st, ch);
    if Owed(st, ch) != [] {
      assert [Owed(st, ch)[0]] + Owed(st, ch)[1..] == Owed(st, ch);
      assert st.chans[ch].delivered + [Owed(st, ch)[0]] + Owed(st1, ch)
          == st.chans[ch].delivered + ([Owed(st, ch)[0]] + Owed(st1, ch));
      forall k | k in st.chans && k != ch ensures Calm(st, st1, k) {
        StillCalm(st, st1, k);
      }
    }
  }

  lemma PollTouches(st: State, ch: ChanId)
    requires Sound(st) && ch in st.chans
    ensures PollTake(st, ch).Next?
    ensures var st1 := PollTake(st, ch).value.0;
      forall u :: u in st.tasks && st.tasks[u].park != OnChan(ch, true) ==>
        u in st1.tasks && st1.tasks[u].pending == st.tasks[u].pending
  {
    hide Core, ChansOk;
    if st.chans[ch].sendq != [] {
      hide PollTake, Taken1;
      SenderHolds(st, ch);
      PollSenderIs(st, ch, st.tasks[st.chans[ch].sendq[0]].pending.value);
    }
  }

  // The running task's own record and nothing else.
  lemma OwnCalms(st: State, st1: State, st': State, t: TaskId)
    requires Calms(st, st1) && ChansOk(st1, {}) && t in st1.tasks && !st1.tasks[t].park.OnChan?
    requires t in st'.tasks && st'.tasks == st1.tasks[t := st'.tasks[t]]
    requires st'.chans.Keys == st1.chans.Keys
    requires forall ch :: ch in st1.chans ==>
               st'.chans[ch] == st1.chans[ch].(recvq := st'.chans[ch].recvq,
                                               selq := st'.chans[ch].selq)
    ensures Calms(st, st')
  {
    hide ChansOk, Flow;
    forall ch | ch in st'.chans ensures Calm(st, st', ch) {
      assert Calm(st, st1, ch);
      StillCalm(st1, st', ch);
    }
  }

  lemma RecvCalms(st: State, t: TaskId, ch: ChanId)
    requires Ready(st, t) && RecvOp(st, t, ch).Next?
    ensures Calms(st, RecvOp(st, t, ch).value)
  {
    hide Core, ChansOk, ClosedOk, PollTake, ReturnTo, FrameOk, NoRefs, Calms;
    RunningFacts(st, t);
    PollTakeSafe(st, t, ch);
    PollTakesOldest(st, ch);
    PollCalms(st, ch);
    var (st1, k) := PollTake(st, ch).value;
    if k.NotReady? {
      OwnCalms(st, st1, RecvOp(st, t, ch).value, t);
    } else {
      ReturnedOwn(st1, t, Received(AsRecv(k)));
      OwnCalms(st, st1, ReturnTo(st1, t, Received(AsRecv(k))).value, t);
    }
  }

  lemma ReturnedOwn(st: State, t: TaskId, r: Ret)
    requires t in st.tasks
    ensures ReturnTo(st, t, r).Next?
    ensures var st' := ReturnTo(st, t, r).value;
      t in st'.tasks && st'.tasks == st.tasks[t := st'.tasks[t]] && st'.chans == st.chans
  {
  }

  lemma SelectCalms(st: State, t: TaskId, chs: seq<ChanId>)
    requires Ready(st, t) && Select(st, t, chs).Next?
    ensures Calms(st, Select(st, t, chs).value)
  {
    hide Core, ChansOk, ClosedOk, Scan, Register, ReturnTo, FrameOk, NoRefs, Calms, PollTake;
    RunningFacts(st, t);
    ScanSafe(st, t, chs, 0);
    var (st1, i, k) := Scan(st, chs, 0).value;
    if k.NotReady? {
      SelfCalms(st);
      RegisterKeeps(st1.chans, t, chs, 0);
      OwnCalms(st, st1, Select(st, t, chs).value, t);
    } else {
      PollCalms(st, chs[i]);
      PollTakeSafe(st, t, chs[i]);
      ReturnedOwn(st1, t, Selected(i, AsRecv(k)));
      OwnCalms(st, st1, ReturnTo(st1, t, Selected(i, AsRecv(k))).value, t);
    }
  }

  lemma SelfCalms(st: State)
    ensures Calms(st, st)
  {
  }

  lemma {:induction false} RegisterKeeps(chans: map<ChanId, Chan>, t: TaskId, chs: seq<ChanId>, i: nat)
    requires Register(chans, t, chs, i).Next?
    ensures var r := Register(chans, t, chs, i).value;
      r.Keys == chans.Keys && forall ch :: ch in chans ==> r[ch] == chans[ch].(selq := r[ch].selq)
    decreases |chs| - i
  {
    if i < |chs| {
      var c := chans[chs[i]];
      RegisterKeeps(chans[chs[i] := c.(selq := c.selq + [SelReg(t, i)])], t, chs, i + 1);
    }
  }

  // ---- Senders that are dropped or told of a close ----

  // The tasks of d have left the channels; the others hold what they held.
  lemma DropMoves(st: State, st': State, d: set<TaskId>)
    requires ChansOk(st, {}) && ChansLess(st, st', d)
    requires forall u :: u in st.tasks && u !in d ==>
               u in st'.tasks && st'.tasks[u].pending == st.tasks[u].pending
    ensures st'.chans.Keys == st.chans.Keys
    ensures forall ch :: ch in st.chans ==> Moves(st, st', ch, d, [])
  {
    hide ChansOk, ChanLess, Moves;
    forall ch | ch in st.chans ensures Moves(st, st', ch, d, []) {
      assert ChanLess(st.chans[ch], st'.chans[ch], d);
      DropMove(st, st', ch, d);
    }
  }

  lemma DropMove(st: State, st': State, ch: ChanId, d: set<TaskId>)
    requires ChansOk(st, {}) && ch in st.chans && ch in st'.chans
    requires ChanLess(st.chans[ch], st'.chans[ch], d)
    requires forall u :: u in st.tasks && u !in d ==>
               u in st'.tasks && st'.tasks[u].pending == st.tasks[u].pending
    ensures Moves(st, st', ch, d, [])
  {
    hide ChansOk, Held, Without, SelWithout;
    var c, c' := st.chans[ch], st'.chans[ch];
    SendersParked(st, ch);
    HeldFrame(st.tasks, st'.tasks, c'.sendq);
    assert c.delivered + Owed(st', ch) == c.delivered + c.buf + Held(st.tasks, c'.sendq) + [];
    assert c.log + [] == c.log;
  }

  lemma CancelMoves(st: State, t: TaskId, s: ScopeId, all: seq<ChanId>)
    requires Ready(st, t) && CallerOk(st, t, DoCancel(s, all)) && Cancel(st, t, s, all).Next?
    ensures Cancel(st, t, s, all).value.chans.Keys == st.chans.Keys
    ensures forall ch :: ch in st.chans ==>
              Moves(st, Cancel(st, t, s, all).value, ch, Victims(st, s, t), [])
  {
    hide Core, ChansOk, ClosedOk, CallerOk, Cancel, PollerLess, Victim, Victims, ChanLess, Moves;
    CancelSafe(st, t, s, all);
    var st' := Cancel(st, t, s, all).value;
    var back := Put(st', t, st'.tasks[t].(ret := st.tasks[t].ret));
    forall u | u in st.tasks && u !in Victims(st, s, t)
      ensures u in st'.tasks && st'.tasks[u].pending == st.tasks[u].pending
    {
      assert u in back.tasks && back.tasks[u] == st.tasks[u];
    }
    DropMoves(st, st', Victims(st, s, t));
  }

  // The child that an expired deadline drops.
  ghost function Overdue(st: State, u: TaskId): set<TaskId> {
    if u in st.tasks && !st.tasks[u].done && Droppable(st, u) then {u} else {}
  }

  lemma DeadlineMoves(st: State, t: TaskId, s: ScopeId, u: TaskId)
    requires DeadlineResumes(st, t, s, u) && CallerOk(st, t, Continue) && Resume(st, t).Next?
    ensures Resume(st, t).value.chans.Keys == st.chans.Keys
    ensures forall ch :: ch in st.chans ==> Moves(st, Resume(st, t).value, ch, Overdue(st, u), [])
  {
    hide Core, ChansOk, ClosedOk, Resume, Branch, Moves, ChansLess;
    ResumeDeadlineSafe(st, t, s, u);
    ReopenedReady(st, t, s, u);
    var b := Reopened(st, t, u);
    assert DeadlineLink(b, t, s, u);
    BranchLess(b, t, s, u);
    LessFrom(st, b, Resume(st, t).value, t, u);
    DropMoves(st, Resume(st, t).value, Overdue(st, u));
  }

  lemma LessFrom(st: State, b: State, st': State, t: TaskId, u: TaskId)
    requires t in st.tasks && u in st.tasks && u != t && b == Reopened(st, t, u)
    requires ChansLess(b, st', Overdue(b, u))
    requires forall v :: v in b.tasks && v !in Overdue(b, u) ==>
               v in st'.tasks && st'.tasks[v].pending == b.tasks[v].pending
    ensures Overdue(b, u) == Overdue(st, u) && ChansLess(st, st', Overdue(st, u))
    ensures forall v :: v in st.tasks && v !in Overdue(st, u) ==>
               v in st'.tasks && st'.tasks[v].pending == st.tasks[v].pending
  {
    hide ChanLess;
  }

  lemma BranchLess(b: State, t: TaskId, s: ScopeId, u: TaskId)
    requires Ready(b, t) && u in b.tasks && b.tasks[u].awaiter == None && u != t
    requires DeadlineLink(b, t, s, u)
    requires Droppable(b, u) ==> NoOpenScope(b, u)
    requires Branch(b, t, s, u).Next?
    ensures ChansLess(b, Branch(b, t, s, u).value, Overdue(b, u))
    ensures forall v :: v in b.tasks && v !in Overdue(b, u) ==>
               var st' := Branch(b, t, s, u).value;
               v in st'.tasks && st'.tasks[v].pending == b.tasks[v].pending
  {
    hide Core, ChansOk, ClosedOk, ForceDrop, ChanLess, PollerLess, FrameOk;
    if !b.tasks[u].done && Droppable(b, u) {
      MarkedInv(b, s, TimedOut);
      ForceDropSafe(Marked(b, s, TimedOut), u, s, t);
    } else {
      NobodyLess(b, Branch(b, t, s, u).value);
    }
  }

  lemma NobodyLess(st: State, st': State)
    requires st'.chans == st.chans
    ensures ChansLess(st, st', {})
  {
    forall ch | ch in st.chans ensures ChanLess(st.chans[ch], st'.chans[ch], {}) {
      WithoutNothing(st.chans[ch].sendq, {});
      WithoutNothing(st.chans[ch].recvq, {});
      SelWithoutNothing(st.chans[ch].selq, {});
    }
  }

  ghost function Senders(c: Chan): set<TaskId> {
    set u | u in c.sendq
  }

  lemma CloseMoves(st: State, t: TaskId, ch: ChanId)
    requires Ready(st, t) && Close(st, t, ch).Next?
    ensures ch in st.chans && Close(st, t, ch).value.chans.Keys == st.chans.Keys
    ensures Moves(st, Close(st, t, ch).value, ch, Senders(st.chans[ch]), [])
    ensures forall k :: k in st.chans && k != ch ==> Calm(st, Close(st, t, ch).value, k)
  {
    hide Core, ChansOk, ClosedOk, Close, Audience, SelWithout, SelTasks, ParkedOn, Calm;
    CloseAborts(st, t, ch);
    CloseWakes(st, t, ch);
    var st', c := Close(st, t, ch).value, st.chans[ch];
    EverySender(c.sendq, Senders(c));
    assert Held(st.tasks, []) == Held(st'.tasks, []) == [];
    assert c.delivered + c.buf + [] + [] == c.delivered + (c.buf + []);
    assert c.log + [] == c.log;
    forall u | u in st.tasks ensures u in st'.tasks && st'.tasks[u].pending == st.tasks[u].pending {
    }
    forall k | k in st.chans && k != ch ensures Calm(st, st', k) {
      StillCalm(st, st', k);
    }
  }

  lemma {:induction false} EverySender(q: seq<TaskId>, d: set<TaskId>)
    requires forall u :: u in q ==> u in d
    ensures Without(q, d) == []
  {
    if q != [] {
      EverySender(q[1..], d);
    }
  }

  // ---- Every step ----

  // The senders that a step takes off channel ch without handing their values on: those of a
  // cancelled scope, the child of an expired deadline, and all of them in a close.
  ghost function Shed(st: State, op: Op, ch: ChanId): set<TaskId> {
    if st.cur == None || st.cur.value !in st.tasks || ch !in st.chans then {}
    else
      match op
      case DoCancel(s, _) => Victims(st, s, st.cur.value)
      case DoClose(c) => if c == ch then Senders(st.chans[ch]) else {}
      case Continue =>
        (match st.tasks[st.cur.value].frame
         case InDeadline(_, u) => Overdue(st, u)
         case InDeadlineYield(_, u) => Overdue(st, u)
         case _ => {})
      case _ => {}
  }

  function SentOn(op: Op, ch: ChanId): seq<int> {
    if op.DoSend? && op.chan == ch then [op.value] else []
  }

  ghost predicate MovesAll(st: State, st': State, op: Op) {
    forall ch :: ch in st'.chans ==>
      if ch in st.chans then Moves(st, st', ch, Shed(st, op, ch), SentOn(op, ch))
      else st'.chans[ch].log == [] && Flow(st', ch) == []
  }

  lemma CalmAll(st: State, st': State, op: Op)
    requires Calms(st, st') && !op.DoSend? && forall ch :: Shed(st, op, ch) == {}
    ensures MovesAll(st, st', op)
  {
    hide Flow, Moves, Shed;
    forall ch | ch in st'.chans ensures ch in st.chans && Moves(st, st', ch, {}, []) {
      assert Calm(st, st', ch);
      CalmMoves(st, st', ch);
    }
  }

  // One channel moves and the others are left alone.
  lemma OneMoves(st: State, st': State, op: Op, ch: ChanId)
    requires st'.chans.Keys == st.chans.Keys && ch in st.chans
    requires Moves(st, st', ch, Shed(st, op, ch), SentOn(op, ch))
    requires forall k :: k in st.chans && k != ch ==>
               Calm(st, st', k) && Shed(st, op, k) == {} && SentOn(op, k) == []
    ensures MovesAll(st, st', op)
  {
    hide Calm, Moves, Shed, SentOn;
    forall k | k in st.chans && k != ch ensures Moves(st, st', k, {}, []) {
      CalmMoves(st, st', k);
    }
  }

  // No channel and no task but the idle ones of own.
  lemma QuietMoves(st: State, st': State, op: Op, own: set<TaskId>)
    requires Inv(st) && Inv(st') && Quiet(st, st', own)
    requires forall t :: t in own && t in st.tasks ==> st.tasks[t].park.NotParked?
    requires !op.DoSend? && forall ch :: Shed(st, op, ch) == {}
    ensures MovesAll(st, st', op)
  {
    hide Core, ChansOk, ClosedOk, Calms, MovesAll, Shed;
    QuietCalms(st, st', own);
    CalmAll(st, st', op);
  }

  lemma CallMoves(st: State, t: TaskId, op: Op)
    requires Inv(st) && st.cur == Some(t) && t in st.tasks && !op.Pump? && !op.Poll?
    requires CallerOk(st, t, op) && (op.Continue? <==> !st.tasks[t].frame.Running?)
    requires Call(st, t, op).Next? && Inv(Call(st, t, op).value)
    ensures MovesAll(st, Call(st, t, op).value, op)
  {
    hide Core, ChansOk, ClosedOk, CallerOk, Calms, Resume, Cancel, Send, RecvOp, Close, Select, Spawn;
    hide Moves, Calm, FrameOk, Quiet, Keeps;
    CurrentIdle(st, t);
    if QuietOp(st, t, op) {
      hide Call;
      QuietAppends(st, t, op);
      KeepsQuiet(st, Call(st, t, op).value, {t});
      QuietMoves(st, Call(st, t, op).value, op, {t});
    } else {
      match op {
        case DoSend(ch, v) => SendMoves(st, t, ch, v); OneMoves(st, Send(st, t, ch, v).value, op, ch);
        case DoRecv(ch) => RecvCalms(st, t, ch); CalmAll(st, RecvOp(st, t, ch).value, op);
        case DoSelect(chs) => SelectCalms(st, t, chs); CalmAll(st, Select(st, t, chs).value, op);
        case Continue => DeadlineMoves(st, t, st.tasks[t].frame.scope, st.tasks[t].frame.child);
        case DoCancel(s, all) => CancelMoves(st, t, s, all);
        case DoClose(ch) => CloseMoves(st, t, ch); OneMoves(st, Close(st, t, ch).value, op, ch);
        case DoChanNew(s, cap) => NewMoves(st, t, s, cap);
        case DoSpawn(s, a) =>
          FreshIds(st);
          SpawnAppends(st, t, s, a);
          SpawnQuiet(st, Spawn(st, t, s, a).value, t);
          QuietMoves(st, Spawn(st, t, s, a).value, op, {t});
      }
    }
  }

  lemma SpawnQuiet(st: State, st': State, t: TaskId)
    requires st.next !in st.tasks && st'.chans == st.chans
    requires forall u :: u in st.tasks && u != t && u != st.next ==>
               u in st'.tasks && st'.tasks[u] == st.tasks[u]
    ensures Quiet(st, st', {t})
  {
  }

  lemma CarriesQuiet(st: State, st': State)
    requires st'.tasks.Keys == st.tasks.Keys && st'.chans == st.chans
    requires forall u :: u in st.tasks ==> Carries(st.tasks[u], st'.tasks[u])
    ensures Quiet(st, st', {})
  {
  }

  // A task that runs or resumes is parked nowhere.
  lemma CurrentIdle(st: State, t: TaskId)
    requires Core(st, {}) && st.cur == Some(t) && t in st.tasks
    ensures st.tasks[t].park.NotParked?
  {
    hide FramesOk, LinksOk, PollerOk, ScopesOk, IdsOk;
    assert PlaceOk(st, t, {});
  }

  lemma KeepsQuiet(st: State, st': State, own: set<TaskId>)
    requires Keeps(st, st', own, true)
    ensures Quiet(st, st', own)
  {
  }

  lemma NewMoves(st: State, t: TaskId, s: ScopeId, cap: int)
    requires Inv(st) && st.cur == Some(t) && t in st.tasks && ChanNew(st, t, s, cap).Next?
    ensures MovesAll(st, ChanNew(st, t, s, cap).value, DoChanNew(s, cap))
  {
    hide Core, ChansOk, ClosedOk, Moves;
    FreshIds(st);
    CurrentIdle(st, t);
    var st' := ChanNew(st, t, s, cap).value;
    forall ch | ch in st.chans ensures Moves(st, st', ch, {}, []) {
      StillCalm(st, st', ch);
      CalmMoves(st, st', ch);
    }
  }

  // Whatever the step, a channel's flow grows by the value sent on it, loses what the senders that
  // are shed hold, and is otherwise as it was; a new channel has none.
  lemma StepMoves(st: State, op: Op)
    requires Inv(st) && Enabled(st, op) && Exec(st, op).Next?
    ensures Inv(Exec(st, op).value) && MovesAll(st, Exec(st, op).value, op)
  {
    hide Core, ChansOk, ClosedOk, Harvest, Call, CallerOk, MovesAll, Keeps, Quiet, Carries, Dispatch;
    StepSafe(st, op);
    var st' := Exec(st, op).value;
    if op.Pump? {
      PumpKeeps(st);
      CarriesQuiet(st, st');
      QuietMoves(st, st', op, {});
    } else if op.Poll? {
      HarvestAppends(st, op.batch);
      KeepsQuiet(st, st', {});
      QuietMoves(st, st', op, {});
    } else {
      CurrentThere(st);
      CallMoves(st, st.cur.value, op);
    }
  }

  // ---- Every run ----

  // What the senders of q that are in d hold.
  ghost function Missed(tasks: map<TaskId, Task>, q: seq<TaskId>, d: set<TaskId>): seq<Msg> {
    if q == [] then []
    else (if q[0] in d then Held(tasks, [q[0]]) else []) + Missed(tasks, q[1..], d)
  }

  ghost function Tickets(q: seq<Msg>): set<nat> {
    set m | m in q :: m.ticket
  }

  // The tickets below n, without those of gone.
  ghost predicate Covers(q: seq<Msg>, n: nat, gone: set<nat>) {
    forall k: nat :: k in Tickets(q) <==> k < n && k !in gone
  }

  // Values of the log, in its order, each at most once.
  ghost predicate Ordered(q: seq<Msg>, log: seq<int>) {
    && (forall i, j :: 0 <= i < j < |q| ==> q[i].ticket < q[j].ticket)
    && (forall i :: 0 <= i < |q| ==> q[i].ticket < |log| && q[i].value == log[q[i].ticket])
  }

  lemma {:induction false} Departed(front: seq<Msg>, tasks: map<TaskId, Task>, q: seq<TaskId>,
                                    d: set<TaskId>, log: seq<int>)
    requires Ordered(front + Held(tasks, q), log)
    ensures Ordered(front + Held(tasks, Without(q, d)), log)
    ensures Tickets(front + Held(tasks, Without(q, d)))
         == Tickets(front + Held(tasks, q)) - Tickets(Missed(tasks, q, d))
    decreases |q|
  {
    hide Ordered, Tickets;
    if q == [] {
      NoTickets();
    } else {
      var x := Held(tasks, [q[0]]);
      var rest := Held(tasks, q[1..]);
      HeldFirst(tasks, q);
      HeldFirst(tasks, Without(q, d));
      hide Held;
      assert front + (x + rest) == front + x + rest;
      if q[0] in d {
        Dropped(front, x, rest, log);
        Departed(front, tasks, q[1..], d, log);
        TicketsConcat(x, Missed(tasks, q[1..], d));
      } else {
        Departed(front + x, tasks, q[1..], d, log);
        assert front + (x + Held(tasks, Without(q[1..], d)))
            == front + x + Held(tasks, Without(q[1..], d));
        assert [] + Missed(tasks, q[1..], d) == Missed(tasks, q[1..], d);
      }
    }
  }

  lemma HeldFirst(tasks: map<TaskId, Task>, q: seq<TaskId>)
    ensures q != [] ==> Held(tasks, q) == Held(tasks, [q[0]]) + Held(tasks, q[1..])
  {
    if q != [] {
      assert q == [q[0]] + q[1..];
      HeldConcat(tasks, [q[0]], q[1..]);
    }
  }

  lemma NoTickets()
    ensures Tickets([]) == {}
  {
  }

  lemma TicketsConcat(a: seq<Msg>, b: seq<Msg>)
    ensures Tickets(a + b) == Tickets(a) + Tickets(b)
  {
    forall m | m in a || m in b ensures m in a + b {
    }
  }

  lemma Dropped(a: seq<Msg>, b: seq<Msg>, c: seq<Msg>, log: seq<int>)
    requires Ordered(a + b + c, log)
    ensures Ordered(a + c, log) && Tickets(a + c) == Tickets(a + b + c) - Tickets(b)
  {
    var p, q := a + b + c, a + c;
    forall i | 0 <= i < |q|
      ensures q[i] == p[if i < |a| then i else i + |b|] && q[i].ticket !in Tickets(b)
    {
      assert forall j :: 0 <= j < |b| ==> b[j] == p[|a| + j];
    }
    TicketsConcat(a, c);
    TicketsConcat(a + b, c);
    TicketsConcat(a, b);
  }

  // One step keeps the order, and takes the tickets of the senders shed out of the flow and puts
  // that of the value sent in.
  lemma MovesOrdered(st: State, st': State, ch: ChanId, d: set<TaskId>, sent: seq<int>)
    requires Moves(st, st', ch, d, sent) && |sent| <= 1
    requires Ordered(Flow(st, ch), st.chans[ch].log)
    ensures var log := st.chans[ch].log;
      && Ordered(Flow(st', ch), st'.chans[ch].log)
      && Tickets(Flow(st', ch)) == Tickets(Flow(st, ch))
           - Tickets(Missed(st.tasks, st.chans[ch].sendq, d)) + Tickets(Sent(|log|, sent))
  {
    hide Missed;
    var c := st.chans[ch];
    var front, kept := c.delivered + c.buf, Held(st.tasks, Without(c.sendq, d));
    assert front + Held(st.tasks, c.sendq) == Flow(st, ch);
    Departed(front, st.tasks, c.sendq, d, c.log);
    TicketsConcat(front + kept, Sent(|c.log|, sent));
    Extended(front + kept, c.log, sent);
  }

  lemma Extended(q: seq<Msg>, log: seq<int>, sent: seq<int>)
    requires Ordered(q, log) && |sent| <= 1
    ensures Ordered(q + Sent(|log|, sent), log + sent)
  {
  }

  // The tickets that ch has lost by the end of a run, if those of gone were lost before it.
  ghost function Lost(st: State, ops: seq<Op>, ch: ChanId, gone: set<nat>): set<nat>
    decreases |ops|
  {
    if ops == [] then gone
    else
      match Exec(st, ops[0])
      case Next(st1) => Lost(st1, ops[1..], ch, LostBy(st, st1, ops[0], ch, gone))
      case _ => gone
  }

  ghost function LostBy(st: State, st1: State, op: Op, ch: ChanId, gone: set<nat>): set<nat> {
    if ch in st.chans && ch in st1.chans
    then gone + Tickets(Missed(st.tasks, st.chans[ch].sendq, Shed(st, op, ch)))
    else {}
  }

  // The flow of ch is in order, and is the whole log but for what is gone.
  ghost predicate Fifo(st: State, ch: ChanId, gone: set<nat>) {
    if ch in st.chans then
      && Ordered(Flow(st, ch), st.chans[ch].log)
      && (forall k :: k in gone ==> k < |st.chans[ch].log|)
      && Covers(Flow(st, ch), |st.chans[ch].log|, gone)
    else gone == {}
  }

  lemma StepFifo(st: State, st': State, op: Op, ch: ChanId, gone: set<nat>)
    requires MovesAll(st, st', op) && Fifo(st, ch, gone)
    ensures Fifo(st', ch, LostBy(st, st', op, ch, gone))
  {
    hide Moves, Ordered, Shed, Flow, Tickets, Missed;
    if ch !in st'.chans {
    } else if ch in st.chans {
      var log, d, sent := st.chans[ch].log, Shed(st, op, ch), SentOn(op, ch);
      MovesOrdered(st, st', ch, d, sent);
      LogGrows(st, st', ch, d, sent);
      MissedHeld(st, ch, d);
      SentTickets(|log|, sent);
    } else {
      NoneOrdered(st'.chans[ch].log);
    }
  }

  lemma LogGrows(st: State, st': State, ch: ChanId, d: set<TaskId>, sent: seq<int>)
    requires Moves(st, st', ch, d, sent)
    ensures st'.chans[ch].log == st.chans[ch].log + sent
  {
  }

  lemma {:induction false} MissedWithin(tasks: map<TaskId, Task>, q: seq<TaskId>, d: set<TaskId>)
    ensures Tickets(Missed(tasks, q, d)) <= Tickets(Held(tasks, q))
  {
    if q != [] {
      HeldFirst(tasks, q);
      TicketsConcat(Held(tasks, [q[0]]), Held(tasks, q[1..]));
      TicketsConcat(if q[0] in d then Held(tasks, [q[0]]) else [], Missed(tasks, q[1..], d));
      MissedWithin(tasks, q[1..], d);
    }
  }

  lemma MissedHeld(st: State, ch: ChanId, d: set<TaskId>)
    requires ch in st.chans
    ensures Tickets(Missed(st.tasks, st.chans[ch].sendq, d)) <= Tickets(Flow(st, ch))
  {
    hide Held, Missed, Tickets;
    var c := st.chans[ch];
    MissedWithin(st.tasks, c.sendq, d);
    TicketsConcat(c.delivered, Owed(st, ch));
    TicketsConcat(c.buf, Held(st.tasks, c.sendq));
  }

  lemma SentTickets(n: nat, sent: seq<int>)
    requires |sent| <= 1
    ensures Tickets(Sent(n, sent)) == if sent == [] then {} else {n}
  {
    if |sent| == 1 {
      assert Sent(n, sent) == [Msg(n, sent[0])];
      assert Msg(n, sent[0]) in Sent(n, sent);
    }
  }

  lemma NoneOrdered(log: seq<int>)
    requires log == []
    ensures Ordered([], log) && Covers([], |log|, {})
  {
  }

  lemma {:induction false} RunFifo(st: State, ops: seq<Op>, ch: ChanId, gone: set<nat>)
    requires Inv(st) && Legal(st, ops) && Run(st, ops).Next? && Fifo(st, ch, gone)
    ensures Fifo(Run(st, ops).value, ch, Lost(st, ops, ch, gone))
    decreases |ops|
  {
    hide Inv, Exec, Enabled, MovesAll, Fifo, LostBy;
    if ops != [] {
      StepMoves(st, ops[0]);
      var st1 := Exec(st, ops[0]).value;
      StepFifo(st, st1, ops[0], ch, gone);
      RunFifo(st1, ops[1..], ch, LostBy(st, st1, ops[0], ch, gone));
    }
  }

  // In every state of every run, what a channel has handed out, its ring and what its parked
  // senders hold are, in that order, the values sent to it in the order of the sends, without
  // exactly those that went with senders that were shed.
  lemma EveryRunFifo(ops: seq<Op>)
    requires Legal(Init, ops) && Run(Init, ops).Next?
    ensures var st := Run(Init, ops).value;
      forall ch :: ch in st.chans ==>
        && Ordered(Flow(st, ch), st.chans[ch].log)
        && Covers(Flow(st, ch), |st.chans[ch].log|, Lost(Init, ops, ch, {}))
  {
    hide Inv, Run, Legal, Lost, Ordered, Flow, Covers;
    InitInv();
    var st := Run(Init, ops).value;
    forall ch | ch in st.chans
      ensures Fifo(st, ch, Lost(Init, ops, ch, {}))
    {
      RunFifo(Init, ops, ch, {});
    }
  }

  // ---- Runs that lose nothing ----

  // No step of the run sheds a sender.
  ghost predicate Lossless(st: State, ops: seq<Op>)
    decreases |ops|
  {
    ops == [] ||
    ((forall ch :: ch in st.chans ==> Senders(st.chans[ch]) !! Shed(st, ops[0], ch)) &&
     (Exec(st, ops[0]).Next? ==> Lossless(Exec(st, ops[0]).value, ops[1..])))
  }

  // The whole log, as messages.
  ghost predicate Whole(q: seq<Msg>, log: seq<int>) {
    |q| == |log| && forall k :: 0 <= k < |q| ==> q[k] == Msg(k, log[k])
  }

  lemma MovesWhole(st: State, st': State, ch: ChanId, d: set<TaskId>, sent: seq<int>)
    requires Moves(st, st', ch, d, sent) && Senders(st.chans[ch]) !! d
    requires Whole(Flow(st, ch), st.chans[ch].log)
    ensures Whole(Flow(st', ch), st'.chans[ch].log)
  {
    hide Held;
    var c := st.chans[ch];
    assert forall u :: u in c.sendq ==> u in Senders(c);
    WithoutNothing(c.sendq, d);
    assert c.delivered + c.buf + Held(st.tasks, c.sendq) == Flow(st, ch);
    assert Flow(st', ch) == Flow(st, ch) + Sent(|c.log|, sent);
  }

  lemma {:induction false} RunWhole(st: State, ops: seq<Op>)
    requires Inv(st) && Legal(st, ops) && Run(st, ops).Next? && Lossless(st, ops)
    requires forall ch :: ch in st.chans ==> Whole(Flow(st, ch), st.chans[ch].log)
    ensures var st' := Run(st, ops).value;
      forall ch :: ch in st'.chans ==> Whole(Flow(st', ch), st'.chans[ch].log)
    decreases |ops|
  {
    hide Inv, Exec, Enabled, Moves, Whole, Shed, Flow, Senders;
    if ops != [] {
      StepMoves(st, ops[0]);
      var st1 := Exec(st, ops[0]).value;
      forall ch | ch in st1.chans ensures Whole(Flow(st1, ch), st1.chans[ch].log) {
        if ch in st.chans {
          MovesWhole(st, st1, ch, Shed(st, ops[0], ch), SentOn(ops[0], ch));
        } else {
          NoneWhole();
        }
      }
      RunWhole(st1, ops[1..]);
    }
  }

  lemma NoneWhole()
    ensures Whole([], [])
  {
  }

  // With no sender dropped or told of a close, the k-th value handed out, or still in the ring or
  // with a parked sender, is the k-th value sent, for every k: none is missing, doubled or
  // overtaken.
  lemma LosslessRunFifo(ops: seq<Op>)
    requires Legal(Init, ops) && Run(Init, ops).Next? && Lossless(Init, ops)
    ensures var st := Run(Init, ops).value;
      forall ch :: ch in st.chans ==> Whole(Flow(st, ch), st.chans[ch].log)
  {
    hide Inv, Run, Legal, Lossless;
    InitInv();
    RunWhole(Init, ops);
  }
}
