// __scope_cancel drops exactly the suspended tasks of its scope, and nothing else moves.
module SchedCancel {
  import opened Common
  import opened SchedState
  import opened SchedSteps
  import opened SchedMachine
  import opened SchedInvariant
  import opened SchedLife
  import opened SchedPollOps
  import opened SchedDrop
  import opened SchedScopeOps

  // A task that a cancel of s by me must drop, wherever it is suspended.
  predicate Victim(st: State, u: TaskId, s: ScopeId, me: TaskId) {
    Alive(st, u) && st.tasks[u].scope == Some(s) && u != me && Droppable(st, u)
  }

  // What the guards of a drop look at.
  predicate Unheld(st: State, u: TaskId)
    requires u in st.tasks
  {
    st.tasks[u].awaiter == None && st.tasks[u].deadlineChild == None
  }

  ghost predicate AllUnheld(st: State, s: ScopeId, me: TaskId) {
    forall u :: Victim(st, u, s, me) ==> Unheld(st, u)
  }

  ghost predicate TasksLess(st: State, st': State, d: set<TaskId>, s: ScopeId, me: TaskId) {
    && (forall u :: u in d ==> Victim(st, u, s, me) && Unheld(st, u))
    && (forall u :: u in st.tasks && u !in d ==> u in st'.tasks && st'.tasks[u] == st.tasks[u])
    && (forall u :: u in d && st.tasks[u].awaitable ==> u in st'.tasks && st'.tasks[u].dropped)
    && (forall u :: u in st'.tasks ==> u in st.tasks && (u in d ==> st.tasks[u].awaitable))
  }

  // From st to st' the victims in d were dropped, and that is all that happened.
  ghost predicate DroppedAll(st: State, st': State, d: set<TaskId>, s: ScopeId, me: TaskId) {
    && s in st.scopes
    && TasksLess(st, st', d, s, me)
    && st'.scopes == st.scopes[s := st.scopes[s].(live := st.scopes[s].live - |d|)]
    && st'.rq == st.rq && st'.cur == st.cur && st'.next == st.next
    && st'.io == Without(st.io, d)
    && PollerLess(st, st', d)
    && ChansLess(st, st', d)
  }

  // ---- Drops compose ----

  lemma {:induction false} SelWithoutTwice(q: seq<SelReg>, a: set<TaskId>, b: set<TaskId>)
    ensures SelWithout(SelWithout(q, a), b) == SelWithout(q, a + b)
  {
    if q != [] {
      SelWithoutTwice(q[1..], a, b);
      assert q[0].task !in a ==> SelWithout(q, a)[1..] == SelWithout(q[1..], a);
    }
  }

  lemma LessTwice(st: State, st1: State, st2: State, a: set<TaskId>, b: set<TaskId>)
    requires ChansLess(st, st1, a) && ChansLess(st1, st2, b)
    requires PollerLess(st, st1, a) && PollerLess(st1, st2, b)
    ensures ChansLess(st, st2, a + b) && PollerLess(st, st2, a + b)
  {
    forall ch | ch in st.chans ensures ChanLess(st.chans[ch], st2.chans[ch], a + b) {
      var c := st.chans[ch];
      assert ChanLess(c, st1.chans[ch], a) && ChanLess(st1.chans[ch], st2.chans[ch], b);
      WithoutTwice(c.sendq, a, b);
      WithoutTwice(c.recvq, a, b);
      SelWithoutTwice(c.selq, a, b);
    }
  }

  lemma TasksLessTwice(st: State, st1: State, st2: State, a: set<TaskId>, b: set<TaskId>,
                       s: ScopeId, me: TaskId)
    requires TasksLess(st, st1, a, s, me) && TasksLess(st1, st2, b, s, me)
    ensures TasksLess(st, st2, a + b, s, me) && a !! b
  {
    forall u | u in b ensures u !in a && u in st.tasks && st1.tasks[u] == st.tasks[u] {
      assert Victim(st1, u, s, me);
    }
  }

  lemma DroppedTwice(st: State, st1: State, st2: State, a: set<TaskId>, b: set<TaskId>,
                     s: ScopeId, me: TaskId)
    requires DroppedAll(st, st1, a, s, me) && DroppedAll(st1, st2, b, s, me)
    ensures DroppedAll(st, st2, a + b, s, me)
  {
    hide ChansLess, PollerLess, TasksLess, Without;
    LessTwice(st, st1, st2, a, b);
    WithoutTwice(st.io, a, b);
    TasksLessTwice(st, st1, st2, a, b, s, me);
    assert |a + b| == |a| + |b|;
    LiveTwice(st.scopes, s, |a|, |b|);
  }

  lemma LiveTwice(scopes: map<ScopeId, Scope>, s: ScopeId, a: nat, b: nat)
    requires s in scopes
    ensures var c := scopes[s];
      var scopes1 := scopes[s := c.(live := c.live - a)];
      scopes1[s := scopes1[s].(live := scopes1[s].live - b)]
        == scopes[s := c.(live := c.live - (a + b))]
  {
  }

  lemma DroppedNone(st: State, s: ScopeId, me: TaskId)
    requires s in st.scopes
    ensures DroppedAll(st, st, {}, s, me)
  {
    WithoutNothing(st.io, {});
    forall ch | ch in st.chans ensures ChanLess(st.chans[ch], st.chans[ch], {}) {
      WithoutNothing(st.chans[ch].sendq, {});
      WithoutNothing(st.chans[ch].recvq, {});
      SelWithoutNothing(st.chans[ch].selq, {});
    }
    var none: set<TaskId> := {};
    var n := st.scopes[s];
    assert n.(live := n.live - |none|) == n;
    assert st.scopes[s := n] == st.scopes;
  }

  lemma DroppedOne(st: State, st': State, t: TaskId, s: ScopeId, me: TaskId)
    requires Victim(st, t, s, me) && Unheld(st, t) && DropEffect(st, st', t, s)
    ensures DroppedAll(st, st', {t}, s, me)
  {
    hide ChansLess;
  }

  // ---- Where a cancel stands ----

  ghost predicate Cancelling(st: State, s: ScopeId, me: TaskId) {
    && Inv(st)
    && st.cur == Some(me) && me in st.tasks && st.tasks[me].frame.Running?
    && s in st.scopes && st.scopes[s].owner == me
    && (forall u :: Victim(st, u, s, me) ==> NoOpenScope(st, u))
  }

  lemma StillCancelling(st: State, st': State, d: set<TaskId>, s: ScopeId, me: TaskId)
    requires Cancelling(st, s, me) && DroppedAll(st, st', d, s, me) && Inv(st')
    ensures Cancelling(st', s, me)
    ensures AllUnheld(st, s, me) ==> AllUnheld(st', s, me)
  {
    hide Inv, ChansLess, PollerLess;
    forall u | Victim(st', u, s, me)
      ensures u in st.tasks && Victim(st, u, s, me) && st'.tasks[u] == st.tasks[u]
    {
      assert u !in d;
    }
  }

  // One step of a cancel's result: safe, with the victims of d gone.
  ghost predicate Cancels(st: State, o: Out, d: set<TaskId>, s: ScopeId, me: TaskId) {
    && !o.Fault?
    && (AllUnheld(st, s, me) ==> o.Next?)
    && (o.Next? ==> DroppedAll(st, o.value, d, s, me) && Cancelling(o.value, s, me))
  }

  lemma CancelsThen(st: State, st1: State, o: Out, a: set<TaskId>, b: set<TaskId>, s: ScopeId,
                    me: TaskId)
    requires Cancelling(st, s, me) && DroppedAll(st, st1, a, s, me) && Inv(st1)
    requires Cancels(st1, o, b, s, me)
    ensures Cancels(st, o, a + b, s, me)
  {
    hide Cancelling, DroppedAll;
    StillCancelling(st, st1, a, s, me);
    if o.Next? {
      DroppedTwice(st, st1, o.value, a, b, s, me);
    }
  }

  lemma DropVictim(st: State, t: TaskId, s: ScopeId, me: TaskId)
    requires Cancelling(st, s, me) && Victim(st, t, s, me)
    ensures Cancels(st, ForceDrop(st, t, me), {t}, s, me)
    ensures ForceDrop(st, t, me).Next? ==> Inv(ForceDrop(st, t, me).value)
  {
    hide Inv, ForceDrop, DropEffect, DroppedAll;
    ForceDropSafe(st, t, s, me);
    if ForceDrop(st, t, me).Next? {
      DroppedOne(st, ForceDrop(st, t, me).value, t, s, me);
      StillCancelling(st, ForceDrop(st, t, me).value, {t}, s, me);
    }
  }

  // ---- One list ----

  ghost predicate AllSuspended(st: State, q: seq<TaskId>) {
    forall t :: t in q ==> Alive(st, t) && Droppable(st, t)
  }

  ghost predicate Covered(st: State, q: seq<TaskId>, s: ScopeId, me: TaskId, d: set<TaskId>) {
    forall t :: t in q && Victim(st, t, s, me) ==> t in d
  }

  lemma {:induction false} CancelListSafe(st: State, q: seq<TaskId>, s: ScopeId, me: TaskId)
      returns (d: set<TaskId>)
    requires Cancelling(st, s, me)
    requires NoDup(q) && AllSuspended(st, q)
    ensures Cancels(st, CancelList(st, q, s, me), d, s, me)
    ensures CancelList(st, q, s, me).Next? ==> Covered(st, q, s, me, d)
    decreases |q|
  {
    hide Inv, ForceDrop, DroppedAll, Cancelling;
    if q == [] {
      d := {};
      CancelsNone(st, s, me);
    } else {
      var t := q[0];
      NoDupTail(q);
      if Doomed(st, t, s, me) {
        DropVictim(st, t, s, me);
        d := {t};
        if ForceDrop(st, t, me).Next? {
          var st1 := ForceDrop(st, t, me).value;
          RestKept(st, st1, t, q[1..], s, me);
          var d' := CancelListSafe(st1, q[1..], s, me);
          CancelsThen(st, st1, CancelList(st1, q[1..], s, me), {t}, d', s, me);
          d := {t} + d';
        }
      } else {
        d := CancelListSafe(st, q[1..], s, me);
      }
    }
  }

  lemma CancelsNone(st: State, s: ScopeId, me: TaskId)
    requires Cancelling(st, s, me)
    ensures Cancels(st, Next(st), {}, s, me)
  {
    hide Inv, DroppedAll;
    DroppedNone(st, s, me);
  }

  lemma RestKept(st: State, st1: State, t: TaskId, q: seq<TaskId>, s: ScopeId, me: TaskId)
    requires DroppedAll(st, st1, {t}, s, me) && t !in q && AllSuspended(st, q)
    ensures AllSuspended(st1, q)
    ensures forall u :: u in q && Victim(st, u, s, me) ==> Victim(st1, u, s, me)
  {
    hide ChansLess, PollerLess;
  }

  // ---- One select queue ----

  ghost predicate SelCovered(st: State, q: seq<SelReg>, s: ScopeId, me: TaskId, d: set<TaskId>) {
    forall w :: w in q && Victim(st, w.task, s, me) ==> w.task in d
  }

  ghost predicate NotDoomedBelow(st: State, ch: ChanId, i: nat, s: ScopeId, me: TaskId) {
    && ch in st.chans && i <= |st.chans[ch].selq|
    && forall j :: 0 <= j < i ==> !Victim(st, st.chans[ch].selq[j].task, s, me)
  }

  lemma SelQueueOk(st: State, ch: ChanId, w: SelReg)
    requires ChansOk(st, {}) && ch in st.chans && w in st.chans[ch].selq
    ensures Alive(st, w.task) && st.tasks[w.task].park == OnSelect && Droppable(st, w.task)
  {
    assert ChanOk(st, ch, {});
  }

  lemma {:induction false} SelWithoutShrinks(q: seq<SelReg>, w: SelReg)
    requires w in q
    ensures |SelWithout(q, {w.task})| < |q|
  {
    SelShorter(q[1..], {w.task});
    if q[0].task != w.task {
      SelWithoutShrinks(q[1..], w);
    }
  }

  lemma {:induction false} SelShorter(q: seq<SelReg>, d: set<TaskId>)
    ensures |SelWithout(q, d)| <= |q|
  {
    if q != [] {
      SelShorter(q[1..], d);
    }
  }

  // Going back to the head after every drop, the walk still ends, and misses nobody.
  lemma {:induction false} CancelSelectSafe(st: State, ch: ChanId, i: nat, s: ScopeId, me: TaskId)
      returns (d: set<TaskId>)
    requires Cancelling(st, s, me) && NotDoomedBelow(st, ch, i, s, me)
    ensures Cancels(st, CancelSelect(st, ch, i, s, me), d, s, me)
    ensures CancelSelect(st, ch, i, s, me).Next? ==> SelCovered(st, st.chans[ch].selq, s, me, d)
    decreases |st.chans[ch].selq|, |st.chans[ch].selq| - i
  {
    hide ForceDrop, DroppedAll, Cancels, Core, ClosedOk, ChansOk, NoOpenScope;
    var q := st.chans[ch].selq;
    if i == |q| {
      d := {};
      CancelsNone(st, s, me);
    } else {
      SelQueueOk(st, ch, q[i]);
      var t := q[i].task;
      if Doomed(st, t, s, me) {
        DropVictim(st, t, s, me);
        d := {t};
        if ForceDrop(st, t, me).Next? {
          d := CancelSelectOn(st, ch, q[i], s, me);
        }
      } else {
        d := CancelSelectSafe(st, ch, i + 1, s, me);
      }
    }
  }

  lemma {:induction false} CancelSelectOn(st: State, ch: ChanId, w: SelReg, s: ScopeId, me: TaskId)
      returns (d: set<TaskId>)
    requires Cancelling(st, s, me) && ch in st.chans && w in st.chans[ch].selq
    requires Victim(st, w.task, s, me) && ForceDrop(st, w.task, me).Next?
    ensures var st1 := ForceDrop(st, w.task, me).value;
      && ch in st1.chans && |st1.chans[ch].selq| < |st.chans[ch].selq|
      && Cancels(st, CancelSelect(st1, ch, 0, s, me), d, s, me)
      && (CancelSelect(st1, ch, 0, s, me).Next? ==> SelCovered(st, st.chans[ch].selq, s, me, d))
    decreases |st.chans[ch].selq|, 0
  {
    hide ForceDrop, DroppedAll, Cancelling, Inv, NoOpenScope;
    DropVictim(st, w.task, s, me);
    var st1 := ForceDrop(st, w.task, me).value;
    SelAfter(st, st1, ch, w, s, me);
    var d' := CancelSelectSafe(st1, ch, 0, s, me);
    CancelsThen(st, st1, CancelSelect(st1, ch, 0, s, me), {w.task}, d', s, me);
    d := {w.task} + d';
  }

  lemma SelAfter(st: State, st1: State, ch: ChanId, w: SelReg, s: ScopeId, me: TaskId)
    requires DroppedAll(st, st1, {w.task}, s, me) && ch in st.chans && w in st.chans[ch].selq
    ensures ch in st1.chans && |st1.chans[ch].selq| < |st.chans[ch].selq|
    ensures forall v :: v in st.chans[ch].selq && v.task != w.task ==> v in st1.chans[ch].selq
    ensures forall u :: Victim(st, u, s, me) && u != w.task ==> Victim(st1, u, s, me)
  {
    hide PollerLess;
    assert ChanLess(st.chans[ch], st1.chans[ch], {w.task});
    SelWithoutShrinks(st.chans[ch].selq, w);
    forall v | v in st.chans[ch].selq && v.task != w.task ensures v in st1.chans[ch].selq {
      SelWithoutKeeps(st.chans[ch].selq, {w.task}, v);
    }
  }

  lemma {:induction false} SelWithoutKeeps(q: seq<SelReg>, d: set<TaskId>, v: SelReg)
    requires v in q && v.task !in d
    ensures v in SelWithout(q, d)
  {
    if q[0] != v {
      SelWithoutKeeps(q[1..], d, v);
    }
  }

  // ---- One channel, and all of them ----

  ghost predicate ChanCovered(st: State, ch: ChanId, s: ScopeId, me: TaskId, d: set<TaskId>)
    requires ch in st.chans
  {
    && Covered(st, st.chans[ch].sendq, s, me, d)
    && Covered(st, st.chans[ch].recvq, s, me, d)
    && SelCovered(st, st.chans[ch].selq, s, me, d)
  }

  // Whoever an earlier drop left is still there to be covered by a later one.
  lemma CoveredBack(st: State, st1: State, q: seq<TaskId>, a: set<TaskId>, b: set<TaskId>,
                    s: ScopeId, me: TaskId)
    requires TasksLess(st, st1, a, s, me) && Covered(st1, Without(q, a), s, me, b)
    ensures Covered(st, q, s, me, a + b)
  {
    forall t | t in q && Victim(st, t, s, me) && t !in a ensures t in b {
      assert Victim(st1, t, s, me);
      assert t in Without(q, a);
    }
  }

  lemma SelCoveredBack(st: State, st1: State, q: seq<SelReg>, a: set<TaskId>, b: set<TaskId>,
                       s: ScopeId, me: TaskId)
    requires TasksLess(st, st1, a, s, me) && SelCovered(st1, SelWithout(q, a), s, me, b)
    ensures SelCovered(st, q, s, me, a + b)
  {
    forall w | w in q && Victim(st, w.task, s, me) && w.task !in a ensures w.task in b {
      assert Victim(st1, w.task, s, me);
      SelWithoutKeeps(q, a, w);
    }
  }

  lemma ChanCoveredBack(st: State, st1: State, ch: ChanId, a: set<TaskId>, b: set<TaskId>,
                        s: ScopeId, me: TaskId)
    requires DroppedAll(st, st1, a, s, me) && ch in st.chans
    requires ch in st1.chans && ChanCovered(st1, ch, s, me, b)
    ensures ChanCovered(st, ch, s, me, a + b)
  {
    hide TasksLess, PollerLess, Covered, SelCovered;
    assert ChanLess(st.chans[ch], st1.chans[ch], a);
    CoveredBack(st, st1, st.chans[ch].sendq, a, b, s, me);
    CoveredBack(st, st1, st.chans[ch].recvq, a, b, s, me);
    SelCoveredBack(st, st1, st.chans[ch].selq, a, b, s, me);
  }

  lemma QueueSuspended(st: State, ch: ChanId)
    requires ChansOk(st, {}) && ch in st.chans
    ensures NoDup(st.chans[ch].sendq) && AllSuspended(st, st.chans[ch].sendq)
    ensures NoDup(st.chans[ch].recvq) && AllSuspended(st, st.chans[ch].recvq)
  {
    assert ChanOk(st, ch, {});
  }

  lemma SameChans(st: State, st1: State, a: set<TaskId>, s: ScopeId, me: TaskId)
    requires DroppedAll(st, st1, a, s, me)
    ensures st1.chans.Keys == st.chans.Keys
  {
  }

  // The receivers and selects that are left after the senders, and then the selects.
  lemma CancelTailSafe(st: State, ch: ChanId, s: ScopeId, me: TaskId) returns (d: set<TaskId>)
    requires Cancelling(st, s, me) && ch in st.chans
    ensures Cancels(st, CancelTail(st, ch, s, me), d, s, me)
    ensures CancelTail(st, ch, s, me).Next? ==>
              && Covered(st, st.chans[ch].recvq, s, me, d)
              && SelCovered(st, st.chans[ch].selq, s, me, d)
  {
    hide Core, ChansOk, ClosedOk, CancelList, CancelSelect, DroppedAll, Covered, SelCovered;
    hide NoOpenScope;
    QueueSuspended(st, ch);
    var r := CancelList(st, st.chans[ch].recvq, s, me);
    var a := CancelListSafe(st, st.chans[ch].recvq, s, me);
    d := a;
    if r.Next? {
      SameChans(st, r.value, a, s, me);
      var b := CancelSelectSafe(r.value, ch, 0, s, me);
      d := a + b;
      CancelsThen(st, r.value, CancelSelect(r.value, ch, 0, s, me), a, b, s, me);
      if CancelSelect(r.value, ch, 0, s, me).Next? {
        TailCovered(st, r.value, ch, a, b, s, me);
      }
    }
  }

  lemma TailCovered(st: State, st1: State, ch: ChanId, a: set<TaskId>, b: set<TaskId>, s: ScopeId,
                    me: TaskId)
    requires DroppedAll(st, st1, a, s, me) && ch in st.chans && ch in st1.chans
    requires Covered(st, st.chans[ch].recvq, s, me, a)
    requires SelCovered(st1, st1.chans[ch].selq, s, me, b)
    ensures Covered(st, st.chans[ch].recvq, s, me, a + b)
    ensures SelCovered(st, st.chans[ch].selq, s, me, a + b)
  {
    hide TasksLess, PollerLess, SelCovered;
    assert ChanLess(st.chans[ch], st1.chans[ch], a);
    SelCoveredBack(st, st1, st.chans[ch].selq, a, b, s, me);
  }

  lemma CancelChanSafe(st: State, ch: ChanId, s: ScopeId, me: TaskId) returns (d: set<TaskId>)
    requires Cancelling(st, s, me) && ch in st.chans
    ensures Cancels(st, CancelChan(st, ch, s, me), d, s, me)
    ensures CancelChan(st, ch, s, me).Next? ==> ChanCovered(st, ch, s, me, d)
  {
    hide Core, ChansOk, ClosedOk, CancelList, CancelTail, DroppedAll, Covered, SelCovered;
    hide NoOpenScope;
    QueueSuspended(st, ch);
    var r := CancelList(st, st.chans[ch].sendq, s, me);
    var a := CancelListSafe(st, st.chans[ch].sendq, s, me);
    d := a;
    if r.Next? {
      SameChans(st, r.value, a, s, me);
      var b := CancelTailSafe(r.value, ch, s, me);
      d := a + b;
      CancelsThen(st, r.value, CancelTail(r.value, ch, s, me), a, b, s, me);
      if CancelTail(r.value, ch, s, me).Next? {
        HeadCovered(st, r.value, ch, a, b, s, me);
      }
    }
  }

  lemma HeadCovered(st: State, st1: State, ch: ChanId, a: set<TaskId>, b: set<TaskId>, s: ScopeId,
                    me: TaskId)
    requires DroppedAll(st, st1, a, s, me) && ch in st.chans && ch in st1.chans
    requires Covered(st, st.chans[ch].sendq, s, me, a)
    requires Covered(st1, st1.chans[ch].recvq, s, me, b)
    requires SelCovered(st1, st1.chans[ch].selq, s, me, b)
    ensures ChanCovered(st, ch, s, me, a + b)
  {
    hide TasksLess, PollerLess, SelCovered;
    assert ChanLess(st.chans[ch], st1.chans[ch], a);
    SelCoveredBack(st, st1, st.chans[ch].selq, a, b, s, me);
    CoveredBack(st, st1, st.chans[ch].recvq, a, b, s, me);
  }

  ghost predicate AllCovered(st: State, chs: seq<ChanId>, s: ScopeId, me: TaskId, d: set<TaskId>) {
    forall ch :: ch in chs ==> ch in st.chans && ChanCovered(st, ch, s, me, d)
  }

  lemma {:induction false} CancelChansSafe(st: State, chs: seq<ChanId>, s: ScopeId, me: TaskId)
      returns (d: set<TaskId>)
    requires Cancelling(st, s, me) && forall ch :: ch in chs ==> ch in st.chans
    ensures Cancels(st, CancelChans(st, chs, s, me), d, s, me)
    ensures CancelChans(st, chs, s, me).Next? ==> AllCovered(st, chs, s, me, d)
    decreases |chs|
  {
    hide Inv, CancelChan, DroppedAll, NoOpenScope, ChanCovered;
    if chs == [] {
      d := {};
      CancelsNone(st, s, me);
    } else {
      var r := CancelChan(st, chs[0], s, me);
      var a := CancelChanSafe(st, chs[0], s, me);
      d := a;
      if r.Next? {
        SameChans(st, r.value, a, s, me);
        var b := CancelChansSafe(r.value, chs[1..], s, me);
        d := a + b;
        CancelsThen(st, r.value, CancelChans(r.value, chs[1..], s, me), a, b, s, me);
        if CancelChans(r.value, chs[1..], s, me).Next? {
          ChansCovered(st, r.value, chs, a, b, s, me);
        }
      }
    }
  }

  lemma ChansCovered(st: State, st1: State, chs: seq<ChanId>, a: set<TaskId>, b: set<TaskId>,
                     s: ScopeId, me: TaskId)
    requires chs != [] && forall ch :: ch in chs ==> ch in st.chans
    requires DroppedAll(st, st1, a, s, me) && ChanCovered(st, chs[0], s, me, a)
    requires AllCovered(st1, chs[1..], s, me, b)
    ensures AllCovered(st, chs, s, me, a + b)
  {
    hide DroppedAll;
    forall ch | ch in chs ensures ChanCovered(st, ch, s, me, a + b) {
      if ch != chs[0] {
        assert ch in chs[1..];
        ChanCoveredBack(st, st1, ch, a, b, s, me);
      }
    }
  }

  // ---- The whole cancel ----

  ghost function Victims(st: State, s: ScopeId, me: TaskId): set<TaskId> {
    set u | u in st.tasks && Victim(st, u, s, me)
  }

  // Who is still suspended after every list was walked was covered by one of them.
  lemma NobodyLeft(st: State, st1: State, st2: State, all: seq<ChanId>, a: set<TaskId>,
                   b: set<TaskId>, s: ScopeId, me: TaskId, u: TaskId)
    requires Inv(st1) && DroppedAll(st, st1, a, s, me) && DroppedAll(st1, st2, b, s, me)
    requires Inv(st) && Covered(st, st.io, s, me, a) && AllCovered(st1, all, s, me, b)
    requires forall ch :: ch in all <==> ch in st.chans
    ensures Victim(st, u, s, me) ==> u in a + b
  {
    hide Core, ChansOk, ClosedOk, PollerLess, ChansLess;
    if Victim(st, u, s, me) && u !in a {
      SameChans(st, st1, a, s, me);
      assert Victim(st1, u, s, me);
      Whereabouts(st, u);
      Whereabouts(st1, u);
      if !st1.tasks[u].onIo {
        OnSomeChannel(st1, all, s, me, b, u);
      }
    }
  }

  lemma Whereabouts(st: State, u: TaskId)
    requires Core(st, {}) && Alive(st, u)
    ensures st.tasks[u].onIo ==> u in st.io
  {
    hide PlacesOk, FramesOk, LinksOk, PollerOk, ScopesOk, IdsOk;
  }

  lemma OnSomeChannel(st: State, all: seq<ChanId>, s: ScopeId, me: TaskId, d: set<TaskId>,
                      u: TaskId)
    requires Inv(st) && Victim(st, u, s, me) && !st.tasks[u].onIo
    requires AllCovered(st, all, s, me, d) && forall ch :: ch in all <==> ch in st.chans
    ensures u in d
  {
    hide Core;
    assert ParkTargetOk(st, u);
    if st.tasks[u].park.OnChan? {
      var ch := st.tasks[u].park.chan;
      assert ChanOk(st, ch, {}) && ChanCovered(st, ch, s, me, d);
    } else {
      SelectHasChannel(st, u);
      var ch := st.tasks[u].regs[0];
      assert ChanOk(st, ch, {}) && ChanCovered(st, ch, s, me, d);
      assert SelReg(u, 0) in st.chans[ch].selq;
    }
  }

  lemma SelectHasChannel(st: State, u: TaskId)
    requires Core(st, {}) && Alive(st, u) && st.tasks[u].park.OnSelect?
    ensures st.tasks[u].regs != []
  {
    hide Core, Context;
    TaskFacts(st, u);
  }

  // The cancel's two walks, from the marked scope on.
  lemma CancelWalks(st: State, s: ScopeId, t: TaskId, all: seq<ChanId>) returns (d: set<TaskId>)
    requires Cancelling(st, s, t)
    requires forall ch :: ch in all <==> ch in st.chans
    ensures var o := CancelWalk(st, s, t, all);
      && Cancels(st, o, d, s, t)
      && (o.Next? ==> d == Victims(st, s, t))
  {
    hide Core, ChansOk, ClosedOk, CancelList, CancelChans, DroppedAll, Covered, NoOpenScope;
    hide AllCovered;
    IoSuspended(st);
    var a := CancelListSafe(st, st.io, s, t);
    d := a;
    var r := CancelList(st, st.io, s, t);
    if r.Next? {
      SameChans(st, r.value, a, s, t);
      var b := CancelChansSafe(r.value, all, s, t);
      d := a + b;
      var o := CancelChans(r.value, all, s, t);
      CancelsThen(st, r.value, o, a, b, s, t);
      if o.Next? {
        forall u ensures Victim(st, u, s, t) ==> u in a + b {
          NobodyLeft(st, r.value, o.value, all, a, b, s, t, u);
        }
        OnlyVictims(st, o.value, d, s, t);
        assert d == Victims(st, s, t);
      }
    }
  }

  lemma IoSuspended(st: State)
    requires Core(st, {})
    ensures NoDup(st.io) && AllSuspended(st, st.io)
  {
    hide FramesOk, LinksOk, PollerOk, ScopesOk, IdsOk;
    forall u | u in st.io ensures Alive(st, u) {
      assert PlaceOk(st, u, {});
    }
  }

  lemma OnlyVictims(st: State, st': State, d: set<TaskId>, s: ScopeId, me: TaskId)
    requires DroppedAll(st, st', d, s, me)
    ensures forall u :: u in d ==> Victim(st, u, s, me) && Unheld(st, u)
  {
    hide ChansLess, PollerLess;
  }

  lemma NoVictimLeft(st: State, st': State, s: ScopeId, me: TaskId)
    requires DroppedAll(st, st', Victims(st, s, me), s, me)
    ensures forall u :: !Victim(st', u, s, me)
  {
    hide ChansLess, PollerLess;
  }

  // Everything the poller's list and the channels' queues held of scope s is dropped, and
  // nothing else moves: other tasks keep their records, their order and their registrations.
  ghost predicate CancelEffect(st: State, st': State, t: TaskId, s: ScopeId) {
    && s in st.scopes && t in st.tasks && t in st'.tasks && s in st'.scopes
    && st'.tasks[t].ret == Unit
    && DroppedAll(Marked(st, s, Cancelled), Put(st', t, st'.tasks[t].(ret := st.tasks[t].ret)),
                  Victims(st, s, t), s, t)
    && (forall u :: !Victim(st', u, s, t))
    && st'.scopes[s].live == st.scopes[s].live - |Victims(st, s, t)|
    && st'.scopes[s].reason == Cancelled
  }

  // A cancel never goes wrong. It returns if and only if none of the tasks it must drop is
  // awaited or is itself waiting under a deadline, and then it has dropped exactly those.
  lemma CancelSafe(st: State, t: TaskId, s: ScopeId, all: seq<ChanId>)
    requires Ready(st, t) && CallerOk(st, t, DoCancel(s, all))
    ensures Safe(Cancel(st, t, s, all))
    ensures Cancel(st, t, s, all).Next? <==>
              s in st.scopes && st.scopes[s].owner == t && AllUnheld(st, s, t)
    ensures Cancel(st, t, s, all).Next? ==> CancelEffect(st, Cancel(st, t, s, all).value, t, s)
  {
    hide Core, ChansOk, ClosedOk, CancelWalk, DroppedAll, NoOpenScope, FrameOk;
    RunningFacts(st, t);
    hide NoRefs;
    if s in st.scopes && st.scopes[s].owner == t {
      var st1 := Marked(st, s, Cancelled);
      MarkedInv(st, s, Cancelled);
      MarkedVictims(st, s, t);
      assert Cancelling(st1, s, t);
      var d := CancelWalks(st1, s, t, all);
      var o := CancelWalk(st1, s, t, all);
      if o.Next? {
        CancelReturns(st, o.value, t, s);
      }
    }
  }

  // Marking the scope changes nobody's danger.
  lemma MarkedVictims(st: State, s: ScopeId, me: TaskId)
    requires s in st.scopes
    ensures var st1 := Marked(st, s, Cancelled);
      && Victims(st1, s, me) == Victims(st, s, me)
      && (AllUnheld(st1, s, me) <==> AllUnheld(st, s, me))
      && ((forall u :: Victim(st, u, s, me) ==> NoOpenScope(st, u)) ==>
            forall u :: Victim(st1, u, s, me) ==> NoOpenScope(st1, u))
  {
    var st1 := Marked(st, s, Cancelled);
    forall u ensures Victim(st1, u, s, me) <==> Victim(st, u, s, me) {
    }
    forall u | Victim(st, u, s, me)
      ensures Unheld(st1, u) <==> Unheld(st, u)
      ensures NoOpenScope(st1, u) <==> NoOpenScope(st, u)
    {
    }
  }

  lemma CancelReturns(st: State, st2: State, t: TaskId, s: ScopeId)
    requires Ready(st, t) && s in st.scopes && st.scopes[s].owner == t
    requires Cancelling(st2, s, t)
    requires DroppedAll(Marked(st, s, Cancelled), st2, Victims(st, s, t), s, t)
    ensures AllUnheld(st, s, t)
    ensures var st' := Put(st2, t, st2.tasks[t].(ret := Unit));
      Inv(st') && CancelEffect(st, st', t, s)
  {
    hide Core, ChansOk, ClosedOk, FrameOk, NoOpenScope, DroppedAll, Victims, NoRefs;
    RunningFacts(st, t);
    RunningFacts(st2, t);
    var st1 := Marked(st, s, Cancelled);
    var st' := Put(st2, t, st2.tasks[t].(ret := Unit));
    MarkedVictims(st, s, t);
    OnlyVictims(st1, st2, Victims(st, s, t), s, t);
    NoVictimLeft(st1, st2, s, t);
    OwnerKept(st1, st2, Victims(st, s, t), s, t);
    ReturnSafe(st2, t, st2.tasks[t].(ret := Unit));
    VictimsSeen(st, s, t);
    Restored(st2, t, Unit);
    forall u ensures !Victim(st', u, s, t) {
      assert !Victim(st2, u, s, t);
    }
  }

  lemma VictimsSeen(st: State, s: ScopeId, me: TaskId)
    ensures forall u :: u in Victims(st, s, me) <==> Victim(st, u, s, me)
  {
  }

  lemma Restored(st: State, t: TaskId, r: Ret)
    requires t in st.tasks
    ensures var st' := Put(st, t, st.tasks[t].(ret := r));
      Put(st', t, st'.tasks[t].(ret := st.tasks[t].ret)) == st
  {
    PutPut(st, t, st.tasks[t].(ret := r), st.tasks[t]);
    assert st.tasks[t := st.tasks[t]] == st.tasks;
  }

  lemma OwnerKept(st: State, st': State, d: set<TaskId>, s: ScopeId, me: TaskId)
    requires DroppedAll(st, st', d, s, me) && me in st.tasks
    ensures me in st'.tasks && st'.tasks[me] == st.tasks[me]
    ensures st'.scopes == st.scopes[s := st.scopes[s].(live := st.scopes[s].live - |d|)]
  {
    hide ChansLess, PollerLess;
  }
}
