// What flows through a channel: the values it has handed out, its ring, and what its parked
// senders hold, in that order.
module SchedFlow {
  import opened Common
  import opened SchedState
  import opened SchedMachine
  import opened SchedInvariant

  // What the parked senders hold, in queue order.
  ghost function Held(tasks: map<TaskId, Task>, q: seq<TaskId>): seq<Msg> {
    if q == [] then []
    else
      (if q[0] in tasks && tasks[q[0]].pending.Some? then [tasks[q[0]].pending.value] else [])
      + Held(tasks, q[1..])
  }

  // What a channel has accepted and not handed out: its ring, then what its senders hold.
  ghost function Owed(st: State, ch: ChanId): seq<Msg>
    requires ch in st.chans
  {
    st.chans[ch].buf + Held(st.tasks, st.chans[ch].sendq)
  }

  // Those and what it has handed out.
  ghost function Flow(st: State, ch: ChanId): seq<Msg>
    requires ch in st.chans
  {
    st.chans[ch].delivered + Owed(st, ch)
  }

  lemma {:induction false} HeldConcat(tasks: map<TaskId, Task>, p: seq<TaskId>, q: seq<TaskId>)
    ensures Held(tasks, p + q) == Held(tasks, p) + Held(tasks, q)
  {
    if p == [] {
      assert p + q == q;
    } else {
      assert (p + q)[1..] == p[1..] + q;
      HeldConcat(tasks, p[1..], q);
    }
  }

  lemma {:induction false} HeldFrame(tasks: map<TaskId, Task>, tasks': map<TaskId, Task>,
                                     q: seq<TaskId>)
    requires forall t :: t in q ==>
               t in tasks && t in tasks' && tasks'[t].pending == tasks[t].pending
    ensures Held(tasks', q) == Held(tasks, q)
  {
    if q != [] {
      HeldFrame(tasks, tasks', q[1..]);
    }
  }

  // Who is on a send queue.
  lemma SendersParked(st: State, ch: ChanId)
    requires ChansOk(st, {}) && ch in st.chans
    ensures NoDup(st.chans[ch].sendq)
    ensures forall t :: t in st.chans[ch].sendq ==>
              Alive(st, t) && st.tasks[t].park == OnChan(ch, true)
  {
    assert ChanOk(st, ch, {});
  }

  // Nothing joins the flow of ch and nothing leaves it.
  ghost predicate Calm(st: State, st': State, ch: ChanId) {
    && ch in st.chans && ch in st'.chans
    && st'.chans[ch].log == st.chans[ch].log && st.chans[ch].delivered <= st'.chans[ch].delivered
    && Flow(st', ch) == Flow(st, ch)
  }

  // A channel whose queues of senders and of values stay, and whose senders keep what they hold.
  lemma StillCalm(st: State, st': State, ch: ChanId)
    requires ChansOk(st, {}) && ch in st.chans && ch in st'.chans
    requires var c, c' := st.chans[ch], st'.chans[ch];
      c'.delivered == c.delivered && c'.buf == c.buf && c'.sendq == c.sendq && c'.log == c.log
    requires forall u :: u in st.tasks && Alive(st, u) && st.tasks[u].park == OnChan(ch, true) ==>
               u in st'.tasks && st'.tasks[u].pending == st.tasks[u].pending
    ensures Calm(st, st', ch)
  {
    hide ChansOk;
    SendersParked(st, ch);
    HeldFrame(st.tasks, st'.tasks, st.chans[ch].sendq);
  }
}
