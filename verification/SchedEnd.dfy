// Joining a scope and finishing a task keep the invariant and reach no undefined behaviour.
module SchedEnd {
  import opened Common
  import opened SchedState
  import opened SchedSteps
  import opened SchedMachine
  import opened SchedInvariant
  import opened SchedCore
  import opened SchedLife
  import opened SchedJoin
  import opened SchedChans
  import opened SchedPollOps
  import opened SchedDrop
  import opened SchedScopeOps

  // ---- Join: the park ----

  function WithWaiter(st: State, s: ScopeId, w: Option<TaskId>): State
    requires s in st.scopes
  {
    st.(scopes := st.scopes[s := st.scopes[s].(waiter := w)])
  }

  predicate JoinsInnermost(st: State, t: TaskId, s: ScopeId)
    requires t in st.tasks
  {
    var q := st.tasks[t].nest;
    q != [] && s == q[|q| - 1]
  }

  lemma InnermostOwned(st: State, t: TaskId, s: ScopeId)
    requires Core(st, {}) && t in st.tasks && JoinsInnermost(st, t, s)
    ensures s in st.scopes && st.scopes[s].owner == t
    ensures forall v :: v in st.tasks && v != t && st.tasks[v].nest != [] ==>
              st.tasks[v].nest[|st.tasks[v].nest| - 1] != s
  {
    hide QueuesOk, PlacesOk, FramesOk, LinksOk, PollerOk, IdsOk, ScopeOk;
    assert NestOk(st.tasks, st.scopes, t);
    forall v | v in st.tasks && v != t && st.tasks[v].nest != []
      ensures st.tasks[v].nest[|st.tasks[v].nest| - 1] != s
    {
      assert NestOk(st.tasks, st.scopes, v);
    }
  }

  lemma OneJoiner(st: State, t: TaskId, s: ScopeId)
    requires Core(st, {}) && t in st.tasks && JoinsInnermost(st, t, s)
    ensures s in st.scopes && st.scopes[s].owner == t
    ensures forall v :: v in st.tasks && Alive(st, v) && v != t ==> st.tasks[v].frame != InJoin(s)
  {
    hide Core, NoRefs, NestOk, PlaceOk;
    InnermostOwned(st, t, s);
    forall v | v in st.tasks && Alive(st, v) && v != t ensures st.tasks[v].frame != InJoin(s) {
      TaskFacts(st, v);
    }
  }

  lemma JoinParkSafe(st: State, t: TaskId, s: ScopeId)
    requires Ready(st, t) && JoinsInnermost(st, t, s)
    requires s in st.scopes && st.scopes[s].live > 0
    ensures Inv(WithWaiter(Suspended(st, t, InJoin(s)), s, Some(t)))
  {
    hide Core, ChansOk, ClosedOk;
    RunningFacts(st, t);
    hide NoRefs;
    OneJoiner(st, t, s);
    SuspendedCore(st, t, InJoin(s));
    var st1 := Suspended(st, t, InJoin(s));
    var st2 := WithWaiter(st1, s, Some(t));
    assert FrameOk(st2, t);
    assert PlaceOk(st2, t, {});
    hide FrameOk, PlaceOk;
    CoreScope(st1, st2, s, {t});
    CoreSettled(st2, t, {t});
    assert {t} - {t} == {};
    SuspendedChans(st, st2, t);
  }

  // ---- Join: past the park ----

  lemma {:induction false} FreeForksEffect(tasks: map<TaskId, Task>, forks: seq<TaskId>)
    requires NoDup(forks)
    requires forall f :: f in forks ==> f in tasks && (tasks[f].done || tasks[f].dropped)
    ensures FreeForks(tasks, forks).Next?
    ensures var r := FreeForks(tasks, forks).value;
      && (forall v :: v in r <==> v in tasks && v !in forks)
      && (forall v :: v in r ==> r[v] == tasks[v])
    decreases |forks|
  {
    if forks != [] {
      NoDupTail(forks);
      FreeForksEffect(tasks - {forks[0]}, forks[1..]);
    }
  }

  lemma {:induction false} WithoutLast<T(!new)>(q: seq<T>, x: T)
    requires NoDup(q) && q != [] && q[|q| - 1] == x
    ensures Without(q, {x}) == q[..|q| - 1]
  {
    if |q| == 1 {
      assert q[1..] == [];
    } else {
      assert q[1..][|q| - 2] == x;
      WithoutLast(q[1..], x);
      assert q[..|q| - 1] == [q[0]] + q[1..][..|q| - 2];
    }
  }

  // The owner of a drained scope may free it.
  lemma JoinIsReady(st: State, t: TaskId, s: ScopeId)
    requires Inv(st) && st.cur == Some(t) && t in st.tasks && s in st.scopes
    requires st.tasks[t].frame.Running? || st.tasks[t].frame == InJoin(s)
    requires JoinsInnermost(st, t, s)
    requires st.tasks[t].frame.Running? ==> st.scopes[s].live <= 0
    ensures JoinReady(st, t, s)
  {
    hide Core, ChansOk, ClosedOk, FrameOk, PlaceOk;
    OwnFacts(st, t);
    JoinWaiter(st, t, s);
    JoinLiveNat(st, s);
    if st.tasks[t].frame == InJoin(s) {
      JoinDrained(st, t, s);
    }
  }

  // The joiner of s runs again only when nothing of s is live.
  lemma JoinDrained(st: State, t: TaskId, s: ScopeId)
    requires Core(st, {}) && st.cur == Some(t) && t in st.tasks && s in st.scopes
    requires st.tasks[t].frame == InJoin(s)
    ensures st.scopes[s].live <= 0
  {
    hide Core, PlaceOk;
    OwnFacts(st, t);
    OwnLinks(st, t);
  }

  lemma JoinLiveNat(st: State, s: ScopeId)
    requires Core(st, {}) && s in st.scopes
    ensures st.scopes[s].live >= 0
  {
    hide QueuesOk, PlacesOk, FramesOk, LinksOk, PollerOk, IdsOk, LiveSet;
    assert ScopeOk(st.tasks, st.scopes, s);
  }

  lemma JoinWaiter(st: State, t: TaskId, s: ScopeId)
    requires Core(st, {}) && st.cur == Some(t) && t in st.tasks && s in st.scopes
    requires JoinsInnermost(st, t, s)
    ensures st.scopes[s].waiter == None
  {
    hide Core, Context;
    InnermostOwned(st, t, s);
    if st.scopes[s].waiter.Some? {
      ScopeLinkFacts(st, s);
      TaskFacts(st, st.scopes[s].waiter.value);
    }
  }

  // What freeing the forks of s leaves.
  ghost predicate ForksFreed(tasks: map<TaskId, Task>, tasks': map<TaskId, Task>,
                             forks: seq<TaskId>) {
    && (forall v :: v in tasks' <==> v in tasks && v !in forks)
    && (forall v :: v in tasks' ==> tasks'[v] == tasks[v])
  }

  // Every fork of a drained scope has ended, so freeing them frees nothing live.
  lemma JoinForks(st: State, t: TaskId, s: ScopeId)
    requires Inv(st) && JoinReady(st, t, s)
    ensures FreeForks(st.tasks, st.scopes[s].forks).Next?
    ensures ForksFreed(st.tasks, FreeForks(st.tasks, st.scopes[s].forks).value, st.scopes[s].forks)
    ensures t in FreeForks(st.tasks, st.scopes[s].forks).value
    ensures Without(st.tasks[t].nest, {s}) == st.tasks[t].nest[..|st.tasks[t].nest| - 1]
  {
    hide Core, ChansOk, ClosedOk, FreeForks;
    NestLeft(st, t, s);
    JoinForksEnded(st, t, s);
    FreeForksEffect(st.tasks, st.scopes[s].forks);
  }

  lemma NestLeft(st: State, t: TaskId, s: ScopeId)
    requires Core(st, {}) && JoinReady(st, t, s)
    ensures Without(st.tasks[t].nest, {s}) == st.tasks[t].nest[..|st.tasks[t].nest| - 1]
  {
    hide Core, ScopeOk, FrameOk, PlaceOk, Without;
    TaskFacts(st, t);
    WithoutLast(st.tasks[t].nest, s);
  }

  lemma JoinForksEnded(st: State, t: TaskId, s: ScopeId)
    requires Inv(st) && JoinReady(st, t, s)
    ensures NoDup(st.scopes[s].forks)
    ensures forall f :: f in st.scopes[s].forks ==> f in st.tasks && !Alive(st, f)
  {
    hide ChansOk, ClosedOk, QueuesOk, FramesOk, LinksOk, PollerOk, IdsOk, LiveSet;
    JoinScopeFacts(st, s, t);
    forall f | f in st.scopes[s].forks ensures f in st.tasks && !Alive(st, f) {
      JoinTasks(st, t, s, f);
    }
  }

  lemma JoinedChans(st: State, st': State, t: TaskId, s: ScopeId)
    requires Inv(st) && JoinMove(st, st', t, s)
    requires NobodyParked(st, s)
    requires st'.chans == map ch | ch in st.chans && st.chans[ch].scope != s :: st.chans[ch]
    ensures ChansOk(st', {}) && ClosedOk(st')
  {
    hide Core, ClosedOk, JoinReady, SameParked, ChanOk, ParkTargetOk;
    JoinedParked(st, st', t, s);
    ChansScopes(st, st, {});
    forall ch | ch in st'.chans ensures ChanOk(st', ch, {}) {
      ChanFrame1(st, st', ch, {}, {});
    }
    forall v | v in st'.tasks && Alive(st', v) ensures ParkTargetOk(st', v) {
      JoinedStays(st, st', s, v);
    }
    JoinedClosed(st, st');
  }

  lemma JoinedStays(st: State, st': State, s: ScopeId, v: TaskId)
    requires ChansOk(st, {}) && SameParked(st, st', v, {}, {})
    requires NobodyParked(st, s)
    requires st'.chans == map ch | ch in st.chans && st.chans[ch].scope != s :: st.chans[ch]
    requires v in st'.tasks && Alive(st', v)
    ensures ParkTargetOk(st', v)
  {
    hide ChansOk;
    if ChanParked(st, v, {}) {
      JoinedTarget(st, v, s);
    }
  }

  // The freed forks had ended, so they were on no channel.
  lemma JoinedParked(st: State, st': State, t: TaskId, s: ScopeId)
    requires Inv(st) && JoinMove(st, st', t, s)
    ensures forall v :: SameParked(st, st', v, {}, {})
  {
    hide QueuesOk, FramesOk, LinksOk, PollerOk, IdsOk, LiveSet, ScopesOk, ClosedOk, ChansOk;
    forall v ensures SameParked(st, st', v, {}, {}) {
      if v in st.tasks {
        JoinTasks(st, t, s, v);
      }
    }
  }

  lemma JoinedTarget(st: State, v: TaskId, s: ScopeId)
    requires ChansOk(st, {}) && v in st.tasks && Alive(st, v)
    requires NobodyParked(st, s)
    ensures ParkTargetOk(st, v)
    ensures st.tasks[v].park.OnChan? ==> st.chans[st.tasks[v].park.chan].scope != s
    ensures st.tasks[v].park.OnSelect? ==> forall i :: 0 <= i < |st.tasks[v].regs| ==>
              st.chans[st.tasks[v].regs[i]].scope != s
  {
    assert ParkTargetOk(st, v);
    var x := st.tasks[v];
    if x.park.OnChan? {
      assert ChanOk(st, x.park.chan, {});
      assert v in st.chans[x.park.chan].sendq || v in st.chans[x.park.chan].recvq;
    } else if x.park.OnSelect? {
      forall i | 0 <= i < |x.regs| ensures st.chans[x.regs[i]].scope != s {
        assert ChanOk(st, x.regs[i], {});
        assert SelReg(v, i) in st.chans[x.regs[i]].selq;
      }
    }
  }

  lemma JoinedClosed(st: State, st': State)
    requires ClosedOk(st)
    requires forall ch :: ch in st'.chans ==> ch in st.chans && st'.chans[ch] == st.chans[ch]
    ensures ClosedOk(st')
  {
  }

  // No channel of the scope has a task parked on it.
  ghost predicate NobodyParked(st: State, s: ScopeId) {
    forall ch :: ch in st.chans && st.chans[ch].scope == s ==>
      st.chans[ch].sendq == [] && st.chans[ch].recvq == [] && st.chans[ch].selq == []
  }

  // What a join that is not refused does: it frees the forks of s, its channels, which nobody
  // is parked on, and s itself.
  ghost predicate JoinEffect(st: State, st': State, t: TaskId, s: ScopeId) {
    && JoinMove(st, st', t, s) && st'.tasks[t].ret == Unit
    && NobodyParked(st, s)
    && st'.chans == (map ch | ch in st.chans && st.chans[ch].scope != s :: st.chans[ch])
  }

  lemma JoinTailIs(st: State, t: TaskId, s: ScopeId)
    requires Inv(st) && JoinReady(st, t, s)
    ensures !JoinTail(st, t, s).Fault? && (JoinTail(st, t, s).Next? <==> NobodyParked(st, s))
    ensures JoinTail(st, t, s).Next? ==> JoinEffect(st, JoinTail(st, t, s).value, t, s)
  {
    hide Core, ChansOk, ClosedOk, FreeForks;
    JoinForks(st, t, s);
    hide ForksFreed, JoinReady, Without;
    ChansFreed(st, s);
    hide FreeChans;
    if JoinTail(st, t, s).Next? {
      hide Inv;
      JoinTailMove(st, t, s);
    }
  }

  lemma ChansFreed(st: State, s: ScopeId)
    ensures !FreeChans(st.chans, s).Fault? && (FreeChans(st.chans, s).Next? <==> NobodyParked(st, s))
  {
  }

  lemma JoinTailMove(st: State, t: TaskId, s: ScopeId)
    requires JoinReady(st, t, s) && JoinTail(st, t, s).Next?
    requires FreeForks(st.tasks, st.scopes[s].forks).Next?
    requires ForksFreed(st.tasks, FreeForks(st.tasks, st.scopes[s].forks).value, st.scopes[s].forks)
    requires t in FreeForks(st.tasks, st.scopes[s].forks).value
    requires Without(st.tasks[t].nest, {s}) == st.tasks[t].nest[..|st.tasks[t].nest| - 1]
    ensures JoinEffect(st, JoinTail(st, t, s).value, t, s)
  {
    hide FreeForks, Without;
  }

  // It is refused exactly when a channel of s has a task parked on it.
  lemma JoinTailSafe(st: State, t: TaskId, s: ScopeId)
    requires Inv(st) && JoinReady(st, t, s)
    ensures Safe(JoinTail(st, t, s)) && (JoinTail(st, t, s).Next? <==> NobodyParked(st, s))
    ensures JoinTail(st, t, s).Next? ==> JoinEffect(st, JoinTail(st, t, s).value, t, s)
  {
    hide Core, ChansOk, ClosedOk, JoinTail, JoinReady, JoinMove, Parked;
    JoinTailIs(st, t, s);
    if JoinTail(st, t, s).Next? {
      var st' := JoinTail(st, t, s).value;
      JoinedChans(st, st', t, s);
      CoreJoin(st, st', t, s);
    }
  }

  // t waits for s to drain, and that is all.
  ghost predicate JoinParked(st: State, st': State, t: TaskId, s: ScopeId) {
    && t in st.tasks && s in st.scopes && t in st'.tasks && s in st'.scopes
    && st'.tasks == st.tasks[t := st'.tasks[t]]
    && st'.tasks[t] == st.tasks[t].(frame := InJoin(s))
    && st'.scopes == st.scopes[s := st'.scopes[s]]
    && st'.scopes[s] == st.scopes[s].(waiter := Some(t))
    && st'.cur == None && SameQueues(st, st') && st'.chans == st.chans
  }

  // A join parks while there is anything live in its scope; with nothing live it frees the scope,
  // unless a channel of it has a task parked on it.
  lemma JoinSafe(st: State, t: TaskId, s: ScopeId)
    requires Ready(st, t) && JoinsInnermost(st, t, s)
    ensures Safe(Join(st, t, s)) && s in st.scopes && st.scopes[s].live >= 0
    ensures st.scopes[s].live > 0 ==>
              Join(st, t, s).Next? && JoinParked(st, Join(st, t, s).value, t, s)
    ensures st.scopes[s].live == 0 ==>
              && (Join(st, t, s).Next? <==> NobodyParked(st, s))
              && (Join(st, t, s).Next? ==> JoinEffect(st, Join(st, t, s).value, t, s))
  {
    hide Core, ChansOk, ClosedOk, JoinTail;
    InnermostOwned(st, t, s);
    JoinLiveNat(st, s);
    if st.scopes[s].live > 0 {
      JoinParkSafe(st, t, s);
    } else {
      JoinIsReady(st, t, s);
      hide JoinReady;
      JoinTailSafe(st, t, s);
    }
  }

  lemma ResumeJoinSafe(st: State, t: TaskId, s: ScopeId)
    requires Inv(st) && st.cur == Some(t) && t in st.tasks && st.tasks[t].frame == InJoin(s)
    ensures JoinReady(st, t, s) && Safe(JoinTail(st, t, s))
    ensures JoinTail(st, t, s).Next? <==> NobodyParked(st, s)
    ensures JoinTail(st, t, s).Next? ==> JoinEffect(st, JoinTail(st, t, s).value, t, s)
  {
    hide Core, ChansOk, ClosedOk, JoinTail, Context;
    OwnFacts(st, t);
    JoinIsReady(st, t, s);
    JoinTailSafe(st, t, s);
  }
}
