// Opening, spawning, awaiting, joining and finishing keep the invariant and reach no
// undefined behaviour.
module SchedScopeOps {
  import opened Common
  import opened SchedState
  import opened SchedSteps
  import opened SchedMachine
  import opened SchedInvariant
  import opened SchedCore
  import opened SchedLife
  import opened SchedJoin
  import opened SchedChans
  import opened SchedPollOps

  // The running task t is about to execute a builtin.
  ghost predicate Ready(st: State, t: TaskId) {
    Inv(st) && st.cur == Some(t) && t in st.tasks && st.tasks[t].frame.Running?
  }

  // ---- Open and spawn ----

  // What opening a scope returns names a scope that was not there before, empty and owned by the
  // caller, innermost of those it has open; nothing else changes.
  ghost predicate Opened(st: State, st': State, t: TaskId) {
    && t in st.tasks && t in st'.tasks && st'.tasks[t].ret.Handle?
    && var s := st'.tasks[t].ret.id;
    && s !in st.scopes && s in st'.scopes && st'.scopes == st.scopes[s := st'.scopes[s]]
    && (var c := st'.scopes[s];
        && c.owner == t && c.live == 0 && c.forks == [] && c.waiter == None && c.reason == NoReason
        && c.parent == Innermost(st.tasks[t]))
    && st'.tasks == st.tasks[t := st'.tasks[t]]
    && st'.tasks[t] == st.tasks[t].(nest := st.tasks[t].nest + [s], ret := Handle(s))
    && st'.chans == st.chans && st'.cur == st.cur && SameQueues(st, st')
  }

  lemma ScopeOpenSafe(st: State, t: TaskId)
    requires Ready(st, t)
    ensures ScopeOpen(st, t).Next? && Inv(ScopeOpen(st, t).value)
    ensures Opened(st, ScopeOpen(st, t).value, t)
  {
    hide Core, ChansOk, ClosedOk;
    RunningFacts(st, t);
    hide NoRefs, FrameOk;
    var st' := ScopeOpen(st, t).value;
    CoreOpen(st, st', t, st.next);
    hide OpenMove;
    forall u ensures SameParked(st, st', u, {}, {}) {
    }
    InvChans(st, st');
    FreshIds(st);
  }

  // What the invariant says of one task.
  lemma TaskFacts(st: State, v: TaskId)
    requires Core(st, {}) && v in st.tasks
    ensures PlaceOk(st, v, {}) && NestOk(st.tasks, st.scopes, v)
    ensures Alive(st, v) ==> FrameOk(st, v)
    ensures v < st.next
  {
    hide PlaceOk, NestOk, ScopeOk, FrameOk, QueuesOk, LinksOk, PollerOk;
  }

  lemma ContextFacts(st: State, t: TaskId, s: ScopeId)
    requires Core(st, {}) && Alive(st, t) && s in Context(st, t)
    ensures s in st.scopes && (s in st.tasks[t].nest || Pinned(st, s))
  {
    hide QueuesOk, PlacesOk, FramesOk, LinksOk, PollerOk, IdsOk, ScopesOk, Context, Pinned;
    ContextPinned(st, t, s);
  }

  lemma ScopeLinkFacts(st: State, s: ScopeId)
    requires Core(st, {}) && s in st.scopes && st.scopes[s].waiter.Some?
    ensures var w := st.scopes[s].waiter.value;
      Alive(st, w) && st.tasks[w].frame == InJoin(s) && Waiting(st, w)
  {
    hide QueuesOk, PlacesOk, FramesOk, PollerOk, ScopesOk, IdsOk;
  }

  // Nobody who could be woken at the end of a join of s is waiting to run on.
  lemma SpawnWaiters(st: State, t: TaskId, s: ScopeId, v: TaskId)
    requires Core(st, {}) && st.cur == Some(t) && t in st.tasks && st.tasks[t].frame.Running?
    requires s in Context(st, t)
    requires v in st.tasks && Alive(st, v) && st.tasks[v].frame == InJoin(s)
    ensures Waiting(st, v)
  {
    hide Core, Context, FrameOk, NestOk;
    RunningFacts(st, t);
    hide NoRefs;
    ContextFacts(st, t, s);
    JoinerOwns(st, v, s);
    if s in st.tasks[t].nest {
      OpenOwned(st, t, s);
    }
  }

  // A joiner owns its scope, and waits while there is anything live in it.
  lemma JoinerOwns(st: State, v: TaskId, s: ScopeId)
    requires Core(st, {}) && Alive(st, v) && st.tasks[v].frame == InJoin(s)
    ensures var q := st.tasks[v].nest;
      q != [] && q[|q| - 1] == s && s in st.scopes && st.scopes[s].owner == v
    ensures st.scopes[s].live != 0 ==> Waiting(st, v)
  {
    hide Core, Context, PollFrameOk, DeadlineFrameOk, ChanFrameOk;
    TaskFacts(st, v);
  }

  lemma OpenOwned(st: State, t: TaskId, s: ScopeId)
    requires Core(st, {}) && t in st.tasks && s in st.tasks[t].nest
    ensures s in st.scopes && st.scopes[s].owner == t
  {
    hide Core, FrameOk, PlaceOk;
    TaskFacts(st, t);
    var i :| 0 <= i < |st.tasks[t].nest| && st.tasks[t].nest[i] == s;
  }

  function Spawned(st: State, s: ScopeId, awaitable: bool): State
    requires s in st.scopes
  {
    var u := st.next;
    var sc := st.scopes[s];
    st.(tasks := st.tasks[u := FreshTask(Some(s), awaitable).(inRq := true)],
        scopes := st.scopes[s := sc.(live := sc.live + 1,
                                     forks := if awaitable then [u] + sc.forks else sc.forks)],
        rq := st.rq + [u], next := u + 1)
  }

  lemma SpawnIs(st: State, t: TaskId, s: ScopeId, awaitable: bool)
    requires Core(st, {}) && t in st.tasks && s in st.scopes
    ensures Spawn(st, t, s, awaitable) ==
              Next(Put(Spawned(st, s, awaitable), t,
                       st.tasks[t].(ret := if awaitable then Handle(st.next) else Unit)))
  {
    hide PlacesOk, FramesOk, LinksOk, PollerOk, ScopesOk;
    var u := st.next;
    var y := FreshTask(Some(s), awaitable);
    PutPut(st, u, y, y.(inRq := true));
    assert u !in st.rq && u != t;
  }

  lemma SpawnSafe(st: State, t: TaskId, s: ScopeId, awaitable: bool)
    requires Ready(st, t) && s in Context(st, t)
    ensures Safe(Spawn(st, t, s, awaitable))
    ensures Spawn(st, t, s, awaitable).Abort? <==> s !in st.scopes
  {
    if s in st.scopes {
      hide Core, ChansOk, ClosedOk;
      SpawnIs(st, t, s, awaitable);
      hide Spawn;
      var st1 := Spawned(st, s, awaitable);
      SpawnedInv(st, t, s, awaitable);
      assert st1.tasks[t] == st.tasks[t] by {
        RunningFacts(st, t);
        FreshId(st, t);
      }
      RunningFacts(st, t);
      var x := st.tasks[t].(ret := if awaitable then Handle(st.next) else Unit);
      hide NoRefs, FrameOk, Spawned;
      ReturnSafe(st1, t, x);
    }
  }

  // A new task, under an id never used, is ready behind everyone who was, counted in s, and linked
  // there and named to the caller if it can be awaited.
  ghost predicate Started(st: State, st': State, t: TaskId, s: ScopeId, awaitable: bool) {
    && t in st.tasks && s in st.scopes && var u := st.next;
    && u !in st.tasks && st'.rq == st.rq + [u] && st'.cur == Some(t)
    && t in st'.tasks && u in st'.tasks
    && st'.tasks == st.tasks[u := st'.tasks[u]][t := st'.tasks[t]]
    && st'.tasks[t] == st.tasks[t].(ret := if awaitable then Handle(u) else Unit)
    && Alive(st', u) && st'.tasks[u].frame.Running? && st'.tasks[u].nest == []
    && st'.tasks[u].scope == Some(s) && st'.tasks[u].awaitable == awaitable
    && s in st'.scopes && st'.scopes == st.scopes[s := st'.scopes[s]]
    && st'.scopes[s] == st.scopes[s].(live := st.scopes[s].live + 1,
         forks := (if awaitable then [u] else []) + st.scopes[s].forks)
    && st'.chans == st.chans && st'.io == st.io && st'.fds == st.fds && st'.timers == st.timers
  }

  // The new task is ready, behind everyone who was, and counted and linked in its scope.
  lemma SpawnStarts(st: State, t: TaskId, s: ScopeId, awaitable: bool)
    requires Ready(st, t) && s in st.scopes
    ensures Spawn(st, t, s, awaitable).Next?
    ensures Started(st, Spawn(st, t, s, awaitable).value, t, s, awaitable)
  {
    hide Core, ChansOk, ClosedOk, Spawn;
    FreshIds(st);
    SpawnIs(st, t, s, awaitable);
    assert t != st.next;
    assert [] + st.scopes[s].forks == st.scopes[s].forks;
  }

  lemma FreshIds(st: State)
    requires Inv(st)
    ensures st.next !in st.tasks && st.next !in st.chans && st.next !in st.scopes
  {
    hide ChansOk, ClosedOk, QueuesOk, PlacesOk, FramesOk, LinksOk, PollerOk, ScopesOk;
  }

  lemma FreshId(st: State, t: TaskId)
    requires Core(st, {}) && t in st.tasks
    ensures t < st.next
  {
  }

  lemma SpawnedInv(st: State, t: TaskId, s: ScopeId, awaitable: bool)
    requires Ready(st, t) && s in Context(st, t) && s in st.scopes
    ensures Inv(Spawned(st, s, awaitable)) && Spawned(st, s, awaitable).cur == Some(t)
  {
    hide Core, ChansOk, ClosedOk, FrameOk, Context;
    var st1 := Spawned(st, s, awaitable);
    forall v | v in st.tasks && Alive(st, v) && st.tasks[v].frame == InJoin(s)
      ensures Waiting(st, v)
    {
      SpawnWaiters(st, t, s, v);
    }
    CoreSpawn(st, st1, st.next, s, {});
    forall u ensures SameParked(st, st1, u, {}, {}) {
      if u in st.tasks {
        FreshId(st, u);
      }
    }
    InvChans(st, st1);
  }

  // ---- Await ----

  // The running task becomes somebody's awaiter: it is suspended first and linked second.
  function Suspended(st: State, t: TaskId, f: Frame): State
    requires t in st.tasks
  {
    Put(st, t, st.tasks[t].(frame := f)).(cur := None)
  }

  function Linked(st: State, u: TaskId, a: Option<TaskId>): State
    requires u in st.tasks
  {
    Put(st, u, st.tasks[u].(awaiter := a))
  }

  lemma SuspendedCore(st: State, t: TaskId, f: Frame)
    requires Ready(st, t)
    ensures Core(Suspended(st, t, f), {t})
  {
    hide Core, ChansOk, ClosedOk;
    RunningFacts(st, t);
    hide FrameOk;
    var st1 := Suspended(st, t, f);
    assert OneTask(st, st1, t, {t});
    hide OneTask;
    CoreOneTask(st, st1, t, {}, {t});
  }

  lemma SuspendedChans(st: State, st2: State, t: TaskId)
    requires Ready(st, t)
    requires st2.tasks.Keys == st.tasks.Keys && st2.chans == st.chans
    requires st.scopes.Keys <= st2.scopes.Keys
    requires forall u :: u in st.tasks ==>
               && SameLife(st.tasks[u], st2.tasks[u]) && st2.tasks[u].regs == st.tasks[u].regs
               && (st2.tasks[u].park == st.tasks[u].park || (u == t && !st2.tasks[u].park.OnChan?
                                                             && !st2.tasks[u].park.OnSelect?))
    requires Core(st2, {})
    ensures Inv(st2)
  {
    hide Core, ChansOk, ClosedOk;
    RunningFacts(st, t);
    hide NoRefs, FrameOk, PlaceOk;
    InvChans(st, st2);
  }

  // Nobody but its one awaiter refers to a live task.
  lemma NoReferers(st: State, t: TaskId, u: TaskId, v: TaskId)
    requires Ready(st, t) && Alive(st, u) && Unawaited(st, u)
    requires v in st.tasks && Alive(st, v)
    ensures !RefersTo(st.tasks[v].frame, u)
  {
    hide Core, ChansOk, ClosedOk, Context;
    TaskFacts(st, v);
    TaskFacts(st, t);
  }

  lemma LinkedCore(st: State, st1: State, t: TaskId, u: TaskId)
    requires Ready(st, t) && Alive(st, u) && Unawaited(st, u)
    requires Core(st1, {t}) && t in st1.tasks && u in st1.tasks && Alive(st1, u) && Alive(st1, t)
    requires forall v :: v in st1.tasks && v != t && Alive(st1, v) ==>
               v in st.tasks && Alive(st, v) && st1.tasks[v].frame == st.tasks[v].frame
    requires (st1.tasks[t].frame == InAwait(u) && Waiting(st1, t))
             || (st1.tasks[t].frame.InDeadline? && st1.tasks[t].frame.child == u)
    requires PlaceOk(Linked(st1, u, Some(t)), t, {}) && FrameOk(Linked(st1, u, Some(t)), t)
    ensures Core(Linked(st1, u, Some(t)), {})
  {
    hide Core, ChansOk, ClosedOk, FrameOk, PlaceOk;
    var st2 := Linked(st1, u, Some(t));
    forall v | v in st1.tasks && Alive(st1, v) && v != t
      ensures !RefersTo(st1.tasks[v].frame, u)
    {
      NoReferers(st, t, u, v);
    }
    CoreAwaiter(st1, st2, u, {t});
    CoreSettled(st2, t, {t});
    assert {t} - {t} == {};
  }

  // The record of a task that has just parked on u's awaiter link.
  lemma AwaitFrame(st: State, t: TaskId, u: TaskId)
    requires st.cur == Some(t) && Alive(st, t) && st.tasks[t].frame.Running?
    requires FrameOk(st, t) && PlaceOk(st, t, {})
    requires !st.tasks[t].inRq && !st.tasks[t].onIo && st.tasks[t].park.NotParked?
    requires Alive(st, u) && st.tasks[u].awaitable && AwaitedInside(st, t, u)
    requires st.tasks[t].deadlineChild == None
    ensures var st2 := Linked(Suspended(st, t, InAwait(u)), u, Some(t));
      t in st2.tasks && FrameOk(st2, t) && PlaceOk(st2, t, {})
  {
    var st2 := Linked(Suspended(st, t, InAwait(u)), u, Some(t));
    assert Context(st2, t) == Context(st, t);
    hide Context;
  }

  lemma AwaitPark(st: State, t: TaskId, u: TaskId)
    requires Ready(st, t)
    requires Alive(st, u) && st.tasks[u].awaitable && AwaitedInside(st, t, u) && Unawaited(st, u)
    ensures Inv(Linked(Suspended(st, t, InAwait(u)), u, Some(t)))
  {
    hide Core, ChansOk, ClosedOk, NoRefs, FrameOk, PlaceOk, Context, AwaitedInside, Unawaited;
    RunningFacts(st, t);
    SuspendedCore(st, t, InAwait(u));
    var st1 := Suspended(st, t, InAwait(u));
    var st2 := Linked(st1, u, Some(t));
    AwaitFrame(st, t, u);
    LinkedCore(st, st1, t, u);
    SuspendedChans(st, st2, t);
  }

  lemma AwaitIs(st: State, t: TaskId, u: TaskId)
    requires t in st.tasks && Alive(st, u) && st.tasks[u].awaitable
    ensures Await(st, t, u) == Next(Linked(Suspended(st, t, InAwait(u)), u, Some(t)))
  {
    var x, y := st.tasks[t], st.tasks[u];
    if t == u {
      PutPut(st, t, x.(awaiter := Some(t)), x.(awaiter := Some(t), frame := InAwait(u)));
      PutPut(st, t, x.(frame := InAwait(u)), x.(awaiter := Some(t), frame := InAwait(u)));
    } else {
      var fx, fy := x.(frame := InAwait(u)), y.(awaiter := Some(t));
      assert st.tasks[u := fy][t := fx] == st.tasks[t := fx][u := fy];
    }
  }

  lemma AwaitSafe(st: State, t: TaskId, u: TaskId)
    requires Ready(st, t)
    requires u in st.tasks ==> AwaitedInside(st, t, u) && Unawaited(st, u)
    ensures Safe(Await(st, t, u))
    ensures Await(st, t, u).Abort? <==>
              u !in st.tasks || !st.tasks[u].awaitable || st.tasks[u].dropped
  {
    hide Core, ChansOk, ClosedOk, Unawaited, AwaitedInside;
    RunningFacts(st, t);
    hide FrameOk, NoRefs;
    if u in st.tasks && st.tasks[u].awaitable && !st.tasks[u].dropped {
      if st.tasks[u].done {
        ReturnSafe(st, t, st.tasks[t].(ret := Result(st.tasks[u].result)));
      } else {
        AwaitPark(st, t, u);
        AwaitIs(st, t, u);
      }
    }
  }

  lemma ResumeAwaitSafe(st: State, t: TaskId, u: TaskId)
    requires Inv(st) && st.cur == Some(t) && t in st.tasks && st.tasks[t].frame == InAwait(u)
    ensures ResumeAwait(st, t, u).Next? && Inv(ResumeAwait(st, t, u).value)
    ensures st.tasks[u].done
  {
    hide Core, ChansOk, ClosedOk, Context;
    OwnFacts(st, t);
    ReturnSafe(st, t, st.tasks[t].(frame := Running, ret := Result(st.tasks[u].result)));
  }

  // ---- Stop reasons ----

  function Marked(st: State, s: ScopeId, why: Reason): State
    requires s in st.scopes
  {
    st.(scopes := st.scopes[s := st.scopes[s].(reason := why)])
  }

  lemma MarkedInv(st: State, s: ScopeId, why: Reason)
    requires Inv(st) && s in st.scopes
    ensures Inv(Marked(st, s, why))
  {
    hide Core, ChansOk, ClosedOk;
    MarkedMove(st, s, why);
    CoreScope(st, Marked(st, s, why), s, {});
    InvChans(st, Marked(st, s, why));
  }

  lemma MarkedMove(st: State, s: ScopeId, why: Reason)
    requires Core(st, {}) && s in st.scopes
    ensures ScopeMove(st, Marked(st, s, why), s, {})
  {
    hide QueuesOk, PlacesOk, FramesOk, PollerOk, ScopesOk, IdsOk;
  }
}
