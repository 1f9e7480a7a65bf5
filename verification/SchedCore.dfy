// How the core invariant moves when one record changes. Every builtin is one of these moves
// or a short chain of them; in between, the tasks that are off their wait structure are in
// limbo.
module SchedCore {
  import opened Common
  import opened SchedState
  import opened SchedSteps
  import opened SchedMachine
  import opened SchedInvariant

  // ---- One task is woken, parks, returns or goes into limbo ----

  ghost predicate OneRecord(st: State, st': State, t: TaskId) {
    && t in st.tasks && Alive(st, t)
    && t in st'.tasks && st'.tasks == st.tasks[t := st'.tasks[t]]
    && SameLife(st.tasks[t], st'.tasks[t]) && st'.tasks[t].awaiter == st.tasks[t].awaiter
    && st'.scopes == st.scopes && st'.next == st.next && st'.chans.Keys == st.chans.Keys
    && (st'.cur == st.cur || ((st.cur == None || st.cur == Some(t))
                              && (st'.cur == None || st'.cur == Some(t))))
  }

  ghost predicate OneQueue(q: seq<TaskId>, q': seq<TaskId>, t: TaskId) {
    NoDup(q') && forall u :: u != t ==> (u in q <==> u in q')
  }

  // Registrations of the other tasks are untouched; those of t match its record.
  ghost predicate OnePoller(st: State, st': State, t: TaskId)
    requires t in st'.tasks
  {
    var x := st'.tasks[t];
    && (forall tid :: tid in st.timers && st.timers[tid] != t ==>
          tid in st'.timers && st'.timers[tid] == st.timers[tid])
    && (forall tid :: tid in st'.timers ==>
          if st'.timers[tid] == t then
            && x.timer == tid && !x.timerDead
            && (x.frame.InFdTimed? || ((x.frame.InSleep? || x.frame.InDeadline?) && x.onIo))
          else tid in st.timers && st.timers[tid] == st'.timers[tid])
    && (forall fd :: fd in st.fds && st.fds[fd] != t ==>
          fd in st'.fds && st'.fds[fd] == st.fds[fd])
    && (forall fd :: fd in st'.fds ==>
          if st'.fds[fd] == t then
            && (fd in st.fds || FdFree(st, fd))
            && ((x.frame == InFd(fd) && x.onIo) || (x.frame.InFdTimed? && x.frame.fd == fd))
          else fd in st.fds && st.fds[fd] == st'.fds[fd])
  }

  // Whatever links to t as awaiter or waiter is still right to.
  ghost predicate OneLinks(st: State, st': State, t: TaskId)
    requires t in st'.tasks
  {
    && (forall u :: u in st.tasks && st.tasks[u].awaiter == Some(t) ==>
          || (st'.tasks[t].frame == InAwait(u) && Waiting(st', t))
          || (st'.tasks[t].frame.InDeadline? && st'.tasks[t].frame.child == u))
    && (forall s :: s in st.scopes && st.scopes[s].waiter == Some(t) ==>
          st'.tasks[t].frame == InJoin(s) && Waiting(st', t))
  }

  ghost predicate OneTask(st: State, st': State, t: TaskId, limbo': set<TaskId>) {
    && OneRecord(st, st', t)
    && OneQueue(st.rq, st'.rq, t) && (t in st'.rq <==> st'.tasks[t].inRq)
    && OneQueue(st.io, st'.io, t) && (t in st'.io <==> st'.tasks[t].onIo)
    && OnePoller(st, st', t)
    && OneLinks(st, st', t)
    && PlaceOk(st', t, limbo')
    && (t in limbo' || FrameOk(st', t))
  }

  lemma OneTaskQueues(st: State, st': State, t: TaskId, limbo: set<TaskId>, limbo': set<TaskId>)
    requires QueuesOk(st) && PlacesOk(st, limbo) && IdsOk(st)
    requires OneTask(st, st', t, limbo') && limbo - {t} == limbo' - {t}
    ensures QueuesOk(st') && PlacesOk(st', limbo') && IdsOk(st')
  {
    hide OnePoller, OneLinks, FrameOk;
    forall u | u in st'.tasks ensures PlaceOk(st', u, limbo') {
      assert PlaceOk(st, u, limbo);
      assert u != t ==> st'.tasks[u] == st.tasks[u];
      assert u != t ==> (u in limbo <==> u in limbo - {t});
    }
  }

  lemma OneTaskLinks(st: State, st': State, t: TaskId, limbo': set<TaskId>)
    requires LinksOk(st) && PollerOk(st)
    requires OneTask(st, st', t, limbo')
    ensures LinksOk(st')
  {
    hide OnePoller, FrameOk, PollerOk, PlaceOk, OneQueue;
    forall u | u in st'.tasks && st'.tasks[u].awaiter.Some?
      ensures var a := st'.tasks[u].awaiter.value;
        && Alive(st', a)
        && (|| (st'.tasks[a].frame == InAwait(u) && Waiting(st', a))
            || (st'.tasks[a].frame.InDeadline? && st'.tasks[a].frame.child == u))
    {
      assert st.tasks[u].awaiter == st'.tasks[u].awaiter;
    }
    forall s | s in st'.scopes && st'.scopes[s].waiter.Some?
      ensures var w := st'.scopes[s].waiter.value;
        Alive(st', w) && st'.tasks[w].frame == InJoin(s) && Waiting(st', w)
    {
      assert s in st.scopes && st.scopes[s] == st'.scopes[s];
    }
  }

  lemma OneTaskPoller(st: State, st': State, t: TaskId, limbo': set<TaskId>)
    requires PollerOk(st)
    requires OneTask(st, st', t, limbo')
    ensures PollerOk(st')
  {
    hide OneLinks, FrameOk, PlaceOk, OneQueue;
  }

  lemma OneTaskFrame(st: State, st': State, t: TaskId, limbo': set<TaskId>, u: TaskId)
    requires OneTask(st, st', t, limbo')
    requires u != t && u in st.tasks && Alive(st, u) && FrameOk(st, u)
    ensures u in st'.tasks && FrameOk(st', u)
  {
    hide OneLinks, PlaceOk, OneQueue;
    assert st'.tasks[u] == st.tasks[u];
    ContextFrame(st, st', u);
  }

  lemma OneTaskFrames(st: State, st': State, t: TaskId, limbo: set<TaskId>, limbo': set<TaskId>)
    requires FramesOk(st, limbo)
    requires OneTask(st, st', t, limbo') && limbo - {t} == limbo' - {t}
    ensures FramesOk(st', limbo')
  {
    hide FrameOk, OneLinks, PlaceOk, OneQueue, OnePoller;
    forall u | u in st'.tasks && Alive(st', u) && u !in limbo' ensures FrameOk(st', u) {
      if u != t {
        assert u !in limbo' - {t};
        OneTaskFrame(st, st', t, limbo', u);
      }
    }
  }

  lemma OneTaskScopes(st: State, st': State, t: TaskId)
    requires ScopesOk(st.tasks, st.scopes)
    requires OneRecord(st, st', t)
    ensures ScopesOk(st'.tasks, st'.scopes)
  {
    ScopesFrame(st.tasks, st.scopes, st'.tasks, st'.scopes);
  }

  lemma CoreOneTask(st: State, st': State, t: TaskId, limbo: set<TaskId>, limbo': set<TaskId>)
    requires Core(st, limbo)
    requires OneTask(st, st', t, limbo') && limbo - {t} == limbo' - {t}
    ensures Core(st', limbo')
  {
    hide QueuesOk, PlacesOk, FramesOk, LinksOk, PollerOk, ScopesOk, IdsOk;
    hide OneRecord, OneQueue, OnePoller, OneLinks, PlaceOk, FrameOk;
    OneTaskScopes(st, st', t);
    OneTaskQueues(st, st', t, limbo, limbo');
    OneTaskLinks(st, st', t, limbo');
    OneTaskPoller(st, st', t, limbo');
    OneTaskFrames(st, st', t, limbo, limbo');
  }

  // ---- A task leaves limbo as it is ----

  lemma CoreSettled(st: State, t: TaskId, limbo: set<TaskId>)
    requires Core(st, limbo)
    requires t in st.tasks && Alive(st, t) ==> PlaceOk(st, t, {}) && FrameOk(st, t)
    ensures Core(st, limbo - {t})
  {
    hide QueuesOk, FrameOk, LinksOk, PollerOk, ScopesOk, IdsOk;
    forall u | u in st.tasks ensures PlaceOk(st, u, limbo - {t}) {
      assert PlaceOk(st, u, limbo);
    }
  }

  // ---- One task's awaiter link changes ----

  predicate RefersTo(f: Frame, u: TaskId) {
    || (f.InAwait? && f.target == u)
    || (f.InDeadline? && f.child == u)
    || (f.InDeadlineYield? && f.child == u)
  }

  ghost predicate AwaiterMove(st: State, st': State, u: TaskId, limbo: set<TaskId>) {
    && u in st.tasks && u in st'.tasks
    && st'.tasks[u] == st.tasks[u].(awaiter := st'.tasks[u].awaiter)
    && st' == st.(tasks := st.tasks[u := st'.tasks[u]])
    && (st'.tasks[u].awaiter.Some? ==>
          var a := st'.tasks[u].awaiter.value;
          && Alive(st, u) && Alive(st, a)
          && (|| (st.tasks[a].frame == InAwait(u) && Waiting(st, a))
              || (st.tasks[a].frame.InDeadline? && st.tasks[a].frame.child == u)))
    && (forall v | v in st.tasks && Alive(st, v) && v !in limbo && RefersTo(st.tasks[v].frame, u) ::
          FrameOk(st', v))
  }

  lemma AwaiterFrame(st: State, st': State, u: TaskId, a: Option<TaskId>, v: TaskId)
    requires u in st.tasks && st' == Put(st, u, st.tasks[u].(awaiter := a))
    requires v in st.tasks && FrameOk(st, v) && !RefersTo(st.tasks[v].frame, u)
    ensures FrameOk(st', v)
  {
    hide PollFrameOk, DeadlineFrameOk, LinkFrameOk, ChanFrameOk;
    AwaiterPoll(st, st', u, a, v);
    AwaiterChan(st, st', u, a, v);
    AwaiterLinkFrame(st, st', u, a, v);
    AwaiterDeadline(st, st', u, a, v);
  }

  lemma AwaiterPoll(st: State, st': State, u: TaskId, a: Option<TaskId>, v: TaskId)
    requires u in st.tasks && st' == Put(st, u, st.tasks[u].(awaiter := a))
    requires v in st.tasks && PollFrameOk(st, v)
    ensures PollFrameOk(st', v)
  {
    if v != u {
      assert st'.tasks[v] == st.tasks[v];
    }
  }

  lemma AwaiterChan(st: State, st': State, u: TaskId, a: Option<TaskId>, v: TaskId)
    requires u in st.tasks && st' == Put(st, u, st.tasks[u].(awaiter := a))
    requires v in st.tasks && ChanFrameOk(st, v)
    ensures ChanFrameOk(st', v)
  {
    if v != u {
      assert st'.tasks[v] == st.tasks[v];
    }
  }

  lemma AwaiterLinkFrame(st: State, st': State, u: TaskId, a: Option<TaskId>, v: TaskId)
    requires u in st.tasks && st' == Put(st, u, st.tasks[u].(awaiter := a))
    requires v in st.tasks && LinkFrameOk(st, v) && !RefersTo(st.tasks[v].frame, u)
    ensures LinkFrameOk(st', v)
  {
    if v != u {
      assert st'.tasks[v] == st.tasks[v];
    }
    assert Context(st', v) == Context(st, v);
    hide Context;
  }

  lemma AwaiterDeadline(st: State, st': State, u: TaskId, a: Option<TaskId>, v: TaskId)
    requires u in st.tasks && st' == Put(st, u, st.tasks[u].(awaiter := a))
    requires v in st.tasks && DeadlineFrameOk(st, v) && !RefersTo(st.tasks[v].frame, u)
    ensures DeadlineFrameOk(st', v)
  {
    if v != u {
      assert st'.tasks[v] == st.tasks[v];
    }
  }

  lemma AwaiterFrames(st: State, st': State, u: TaskId, limbo: set<TaskId>)
    requires FramesOk(st, limbo) && AwaiterMove(st, st', u, limbo)
    ensures FramesOk(st', limbo)
  {
    hide FrameOk;
    forall v | v in st'.tasks && Alive(st', v) && v !in limbo ensures FrameOk(st', v) {
      if !RefersTo(st.tasks[v].frame, u) {
        AwaiterFrame(st, st', u, st'.tasks[u].awaiter, v);
      }
    }
  }

  lemma AwaiterRest(st: State, st': State, u: TaskId, limbo: set<TaskId>)
    requires QueuesOk(st) && PlacesOk(st, limbo) && IdsOk(st)
    requires AwaiterMove(st, st', u, limbo)
    ensures QueuesOk(st') && PlacesOk(st', limbo) && IdsOk(st')
  {
    hide FrameOk;
    forall v | v in st'.tasks ensures PlaceOk(st', v, limbo) {
      assert PlaceOk(st, v, limbo);
    }
  }

  lemma AwaiterPoller(st: State, st': State, u: TaskId, limbo: set<TaskId>)
    requires PollerOk(st) && AwaiterMove(st, st', u, limbo)
    ensures PollerOk(st')
  {
    hide FrameOk;
  }

  lemma AwaiterLinks(st: State, st': State, u: TaskId, limbo: set<TaskId>)
    requires LinksOk(st) && AwaiterMove(st, st', u, limbo)
    ensures LinksOk(st')
  {
    hide FrameOk;
    forall v | v in st'.tasks && st'.tasks[v].awaiter.Some?
      ensures var a := st'.tasks[v].awaiter.value;
        && Alive(st', a)
        && (|| (st'.tasks[a].frame == InAwait(v) && Waiting(st', a))
            || (st'.tasks[a].frame.InDeadline? && st'.tasks[a].frame.child == v))
    {
      assert v != u ==> st.tasks[v].awaiter == st'.tasks[v].awaiter;
    }
    forall s | s in st'.scopes && st'.scopes[s].waiter.Some?
      ensures var w := st'.scopes[s].waiter.value;
        Alive(st', w) && st'.tasks[w].frame == InJoin(s) && Waiting(st', w)
    {
    }
  }

  lemma AwaiterScopes(st: State, st': State, u: TaskId, limbo: set<TaskId>)
    requires ScopesOk(st.tasks, st.scopes) && AwaiterMove(st, st', u, limbo)
    ensures ScopesOk(st'.tasks, st'.scopes)
  {
    hide FrameOk;
    ScopesFrame(st.tasks, st.scopes, st'.tasks, st'.scopes);
  }

  lemma CoreAwaiter(st: State, st': State, u: TaskId, limbo: set<TaskId>)
    requires Core(st, limbo) && AwaiterMove(st, st', u, limbo)
    ensures Core(st', limbo)
  {
    hide QueuesOk, PlacesOk, FramesOk, LinksOk, PollerOk, ScopesOk, IdsOk, AwaiterMove;
    AwaiterFrames(st, st', u, limbo);
    AwaiterRest(st, st', u, limbo);
    AwaiterPoller(st, st', u, limbo);
    AwaiterLinks(st, st', u, limbo);
    AwaiterScopes(st, st', u, limbo);
  }

  // ---- One scope's waiter link or stop reason changes ----

  ghost predicate ScopeMove(st: State, st': State, s: ScopeId, limbo: set<TaskId>) {
    && s in st.scopes && s in st'.scopes && SameShape(st.scopes[s], st'.scopes[s])
    && st' == st.(scopes := st.scopes[s := st'.scopes[s]])
    && (st'.scopes[s].waiter.Some? ==>
          var w := st'.scopes[s].waiter.value;
          Alive(st, w) && st.tasks[w].frame == InJoin(s) && Waiting(st, w))
    && (st'.scopes[s].waiter == st.scopes[s].waiter ||
        forall v | v in st.tasks && Alive(st, v) && v !in limbo && st.tasks[v].frame == InJoin(s) ::
          FrameOk(st', v))
  }

  lemma ScopeFrames(st: State, st': State, s: ScopeId, limbo: set<TaskId>)
    requires FramesOk(st, limbo) && ScopeMove(st, st', s, limbo)
    ensures FramesOk(st', limbo)
  {
    forall v | v in st'.tasks && Alive(st', v) && v !in limbo ensures FrameOk(st', v) {
      assert FrameOk(st, v);
      ContextFrame(st, st', v);
    }
  }

  lemma ScopeRest(st: State, st': State, s: ScopeId, limbo: set<TaskId>)
    requires QueuesOk(st) && PlacesOk(st, limbo) && PollerOk(st) && IdsOk(st)
    requires ScopeMove(st, st', s, limbo)
    ensures QueuesOk(st') && PlacesOk(st', limbo) && PollerOk(st') && IdsOk(st')
  {
    hide FrameOk;
    forall v | v in st'.tasks ensures PlaceOk(st', v, limbo) {
      assert PlaceOk(st, v, limbo);
    }
  }

  lemma ScopeLinks(st: State, st': State, s: ScopeId, limbo: set<TaskId>)
    requires LinksOk(st) && ScopeMove(st, st', s, limbo)
    ensures LinksOk(st')
  {
    hide FrameOk;
  }

  lemma ScopeScopes(st: State, st': State, s: ScopeId, limbo: set<TaskId>)
    requires ScopesOk(st.tasks, st.scopes) && ScopeMove(st, st', s, limbo)
    ensures ScopesOk(st'.tasks, st'.scopes)
  {
    hide FrameOk;
    ScopesFrame(st.tasks, st.scopes, st'.tasks, st'.scopes);
  }

  lemma CoreScope(st: State, st': State, s: ScopeId, limbo: set<TaskId>)
    requires Core(st, limbo) && ScopeMove(st, st', s, limbo)
    ensures Core(st', limbo)
  {
    hide QueuesOk, PlacesOk, FramesOk, LinksOk, PollerOk, ScopesOk, IdsOk, ScopeMove;
    ScopeFrames(st, st', s, limbo);
    ScopeRest(st, st', s, limbo);
    ScopeLinks(st, st', s, limbo);
    ScopeScopes(st, st', s, limbo);
  }
}
