// How the core invariant moves when a task or a scope comes into being or ends.
module SchedLife {
  import opened Common
  import opened SchedState
  import opened SchedSteps
  import opened SchedMachine
  import opened SchedInvariant
  import opened SchedCore

  // ---- A task ends: it finishes, or it is dropped ----

  ghost predicate NoRefs(st: State, t: TaskId) {
    && (forall u :: u in st.tasks ==> st.tasks[u].awaiter != Some(t))
    && (forall s :: s in st.scopes ==> st.scopes[s].waiter != Some(t))
    && (forall tid :: tid in st.timers ==> st.timers[tid] != t)
    && (forall fd :: fd in st.fds ==> st.fds[fd] != t)
  }

  ghost predicate LeaveRecord(st: State, st': State, t: TaskId, s: ScopeId) {
    && t in st.tasks && Alive(st, t) && st.tasks[t].nest == [] && st.tasks[t].scope == Some(s)
    && !st.tasks[t].inRq && !st.tasks[t].onIo
    && (if st.tasks[t].awaitable then
          && t in st'.tasks
          && st'.tasks == st.tasks[t := st'.tasks[t]]
          && st'.tasks[t].done != st'.tasks[t].dropped
          && st'.tasks[t].scope == Some(s) && st'.tasks[t].awaitable && st'.tasks[t].nest == []
          && st'.tasks[t].awaiter == None && !st'.tasks[t].inRq && !st'.tasks[t].onIo
        else st'.tasks == st.tasks - {t})
  }

  ghost predicate LeaveScopeMove(st: State, st': State, s: ScopeId) {
    && s in st.scopes && s in st'.scopes
    && st'.scopes == st.scopes[s := st'.scopes[s]]
    && (st'.scopes[s].waiter == st.scopes[s].waiter || st'.scopes[s].waiter == None)
    && SameShape(st'.scopes[s], st.scopes[s].(live := st.scopes[s].live - 1))
  }

  ghost predicate LeaveMove(st: State, st': State, t: TaskId, s: ScopeId, limbo: set<TaskId>,
                            limbo': set<TaskId>) {
    && LeaveRecord(st, st', t, s)
    && LeaveScopeMove(st, st', s)
    && NoRefs(st, t)
    && st'.rq == st.rq && st'.io == st.io && st'.fds == st.fds && st'.timers == st.timers
    && st'.next == st.next && st'.chans.Keys == st.chans.Keys
    && st'.cur == (if st.cur == Some(t) then None else st.cur)
    && limbo <= limbo' + {t}
    && (forall v :: v in limbo' && v !in limbo && v in st.tasks ==>
          !st.tasks[v].inRq && st.cur != Some(v))
    && (forall v | v in st.tasks && Alive(st, v) && v != t && v !in limbo'
              && (RefersTo(st.tasks[v].frame, t) || st.tasks[v].frame == InJoin(s)) ::
          v in st'.tasks && FrameOk(st', v))
  }

  lemma LeaveFrame(st: State, st': State, t: TaskId, s: ScopeId, v: TaskId)
    requires LeaveRecord(st, st', t, s) && LeaveScopeMove(st, st', s)
    requires st'.fds == st.fds && st'.timers == st.timers
    requires st'.cur == (if st.cur == Some(t) then None else st.cur)
    requires v in st.tasks && v != t && FrameOk(st, v)
    requires !RefersTo(st.tasks[v].frame, t) && st.tasks[v].frame != InJoin(s)
    ensures v in st'.tasks && FrameOk(st', v)
  {
    assert st'.tasks[v] == st.tasks[v];
    ContextLeave(st, st', s, v);
    assert LinkFrameOk(st', v) by {
      hide PollFrameOk, DeadlineFrameOk, ChanFrameOk, Context;
    }
    assert DeadlineFrameOk(st', v) by {
      hide PollFrameOk, LinkFrameOk, ChanFrameOk, Context;
    }
  }

  lemma ContextLeave(st: State, st': State, s: ScopeId, v: TaskId)
    requires LeaveScopeMove(st, st', s)
    requires v in st.tasks && v in st'.tasks && SameLife(st.tasks[v], st'.tasks[v])
    ensures Context(st', v) == Context(st, v)
  {
  }

  lemma LeaveFrames(st: State, st': State, t: TaskId, s: ScopeId, limbo: set<TaskId>,
                    limbo': set<TaskId>)
    requires FramesOk(st, limbo) && LeaveMove(st, st', t, s, limbo, limbo')
    ensures FramesOk(st', limbo')
  {
    hide FrameOk, LeaveScopeMove;
    forall v | v in st'.tasks && Alive(st', v) && v !in limbo' ensures FrameOk(st', v) {
      assert v in st.tasks && v != t;
      assert st'.tasks[v] == st.tasks[v];
      if !RefersTo(st.tasks[v].frame, t) && st.tasks[v].frame != InJoin(s) {
        LeaveFrame(st, st', t, s, v);
      }
    }
  }

  lemma LeaveQueues(st: State, st': State, t: TaskId, s: ScopeId, limbo: set<TaskId>,
                    limbo': set<TaskId>)
    requires QueuesOk(st) && PlacesOk(st, limbo) && IdsOk(st)
    requires LeaveMove(st, st', t, s, limbo, limbo')
    ensures QueuesOk(st') && PlacesOk(st', limbo') && IdsOk(st')
  {
    hide FrameOk, NoRefs;
    forall v | v in st'.tasks ensures PlaceOk(st', v, limbo') {
      assert PlaceOk(st, v, limbo);
      assert v != t ==> st'.tasks[v] == st.tasks[v];
    }
  }

  lemma LeaveLinks(st: State, st': State, t: TaskId, s: ScopeId, limbo: set<TaskId>,
                   limbo': set<TaskId>)
    requires LinksOk(st) && LeaveMove(st, st', t, s, limbo, limbo')
    ensures LinksOk(st')
  {
    hide FrameOk, RefersTo;
    forall u | u in st'.tasks && st'.tasks[u].awaiter.Some?
      ensures var a := st'.tasks[u].awaiter.value;
        Alive(st', a) && ((st'.tasks[a].frame == InAwait(u) && Waiting(st', a))
                          || (st'.tasks[a].frame.InDeadline? && st'.tasks[a].frame.child == u))
    {
      assert u in st.tasks && u != t && st'.tasks[u] == st.tasks[u];
      assert st'.tasks[st.tasks[u].awaiter.value] == st.tasks[st.tasks[u].awaiter.value];
    }
  }

  lemma LeavePoller(st: State, st': State, t: TaskId, s: ScopeId, limbo: set<TaskId>,
                    limbo': set<TaskId>)
    requires PollerOk(st) && LeaveMove(st, st', t, s, limbo, limbo')
    ensures PollerOk(st')
  {
    hide FrameOk, LeaveScopeMove;
  }

  lemma LiveSetLeave(tasks: map<TaskId, Task>, tasks': map<TaskId, Task>, t: TaskId, s: ScopeId,
                     s': ScopeId)
    requires t in tasks && tasks[t].scope == Some(s) && !tasks[t].done && !tasks[t].dropped
    requires tasks'.Keys - {t} == tasks.Keys - {t}
    requires forall u :: u in tasks && u != t ==> u in tasks' && tasks'[u] == tasks[u]
    requires t in tasks' ==> tasks'[t].done || tasks'[t].dropped
    ensures |LiveSet(tasks', s')| == |LiveSet(tasks, s')| - (if s' == s then 1 else 0)
  {
    forall u ensures u in LiveSet(tasks', s') <==> u in LiveSet(tasks, s') && u != t {
      assert u != t ==> (u in tasks <==> u in tasks - {t});
      assert u != t ==> (u in tasks' <==> u in tasks.Keys - {t});
    }
    if s' == s {
      assert LiveSet(tasks', s') == LiveSet(tasks, s') - {t};
    } else {
      assert LiveSet(tasks', s') == LiveSet(tasks, s');
    }
  }

  lemma LeaveNest(st: State, st': State, t: TaskId, s: ScopeId, v: TaskId)
    requires LeaveRecord(st, st', t, s) && LeaveScopeMove(st, st', s)
    requires v in st.tasks && v in st'.tasks && NestOk(st.tasks, st.scopes, v)
    ensures NestOk(st'.tasks, st'.scopes, v)
  {
    assert v != t ==> st'.tasks[v] == st.tasks[v];
  }

  lemma LeaveScope1(st: State, st': State, t: TaskId, s: ScopeId, s': ScopeId)
    requires LeaveRecord(st, st', t, s) && LeaveScopeMove(st, st', s)
    requires s' in st.scopes && ScopeOk(st.tasks, st.scopes, s')
    ensures s' in st'.scopes && ScopeOk(st'.tasks, st'.scopes, s')
  {
    assert forall u :: u in st.tasks && u != t ==> u in st'.tasks && st'.tasks[u] == st.tasks[u];
    assert forall u :: u in st'.tasks ==> u in st.tasks;
    LiveSetLeave(st.tasks, st'.tasks, t, s, s');
  }

  lemma LeaveScopes(st: State, st': State, t: TaskId, s: ScopeId)
    requires ScopesOk(st.tasks, st.scopes)
    requires LeaveRecord(st, st', t, s) && LeaveScopeMove(st, st', s)
    ensures ScopesOk(st'.tasks, st'.scopes)
  {
    hide NestOk, ScopeOk;
    forall v | v in st'.tasks ensures NestOk(st'.tasks, st'.scopes, v) {
      LeaveNest(st, st', t, s, v);
    }
    forall s' | s' in st'.scopes ensures ScopeOk(st'.tasks, st'.scopes, s') {
      LeaveScope1(st, st', t, s, s');
    }
  }

  lemma CoreLeave(st: State, st': State, t: TaskId, s: ScopeId, limbo: set<TaskId>,
                  limbo': set<TaskId>)
    requires Core(st, limbo) && LeaveMove(st, st', t, s, limbo, limbo')
    ensures Core(st', limbo')
  {
    hide QueuesOk, PlacesOk, FramesOk, LinksOk, PollerOk, ScopesOk, IdsOk, FrameOk;
    LeaveQueues(st, st', t, s, limbo, limbo');
    LeaveFrames(st, st', t, s, limbo, limbo');
    LeaveLinks(st, st', t, s, limbo, limbo');
    LeavePoller(st, st', t, s, limbo, limbo');
    LeaveScopes(st, st', t, s);
  }

  // ---- A task is spawned ----

  ghost predicate SpawnMove(st: State, st': State, u: TaskId, s: ScopeId, limbo: set<TaskId>) {
    && u == st.next && st'.next == u + 1
    && u in st'.tasks && st'.tasks == st.tasks[u := st'.tasks[u]]
    && st'.tasks[u] == FreshTask(Some(s), st'.tasks[u].awaitable).(inRq := true)
    && s in st.scopes && st'.scopes == st.scopes[s := st.scopes[s].(
         live := st.scopes[s].live + 1,
         forks := if st'.tasks[u].awaitable then [u] + st.scopes[s].forks else st.scopes[s].forks)]
    && st'.rq == st.rq + [u] && st'.io == st.io && st'.fds == st.fds && st'.timers == st.timers
    && st'.cur == st.cur && st'.chans.Keys == st.chans.Keys
    && u !in limbo
    && (forall v | v in st.tasks && Alive(st, v) && v !in limbo
                   && st.tasks[v].frame == InJoin(s) :: Waiting(st, v))
  }

  lemma SpawnQueues(st: State, st': State, u: TaskId, s: ScopeId, limbo: set<TaskId>)
    requires QueuesOk(st) && PlacesOk(st, limbo) && IdsOk(st) && SpawnMove(st, st', u, s, limbo)
    ensures QueuesOk(st') && PlacesOk(st', limbo) && IdsOk(st')
  {
    NoDupSnoc(st.rq, u);
    forall v | v in st'.tasks ensures PlaceOk(st', v, limbo) {
      if v != u {
        assert PlaceOk(st, v, limbo);
        assert st'.tasks[v] == st.tasks[v];
      }
    }
  }

  lemma SpawnFrame(st: State, st': State, u: TaskId, s: ScopeId, limbo: set<TaskId>, v: TaskId)
    requires SpawnMove(st, st', u, s, limbo)
    requires v in st.tasks && v != u && Alive(st, v) && v !in limbo && FrameOk(st, v)
    requires IdsOk(st)
    ensures v in st'.tasks && FrameOk(st', v)
  {
    assert st'.tasks[v] == st.tasks[v];
    assert Context(st', v) == Context(st, v);
    assert LinkFrameOk(st', v) by {
      hide PollFrameOk, DeadlineFrameOk, ChanFrameOk, Context;
    }
  }

  lemma SpawnRest(st: State, st': State, u: TaskId, s: ScopeId, limbo: set<TaskId>)
    requires LinksOk(st) && PollerOk(st) && IdsOk(st) && SpawnMove(st, st', u, s, limbo)
    ensures LinksOk(st') && PollerOk(st')
  {
    assert forall v :: v in st.tasks ==> v in st'.tasks && st'.tasks[v] == st.tasks[v];
    hide SpawnMove;
    assert PollerOk(st') by {
      hide LinksOk;
    }
    assert LinksOk(st') by {
      hide PollerOk;
    }
  }

  lemma SpawnLive(tasks: map<TaskId, Task>, tasks': map<TaskId, Task>, u: TaskId, s: ScopeId,
                  s': ScopeId)
    requires u !in tasks && u in tasks' && tasks' == tasks[u := tasks'[u]]
    requires tasks'[u].scope == Some(s) && !tasks'[u].done && !tasks'[u].dropped
    ensures |LiveSet(tasks', s')| == if s' == s then |LiveSet(tasks, s')| + 1 else |LiveSet(tasks, s')|
  {
    var was, now := LiveSet(tasks, s'), LiveSet(tasks', s');
    assert u !in was;
    assert now == if s' == s then was + {u} else was;
  }

  lemma SpawnScope1(st: State, st': State, u: TaskId, s: ScopeId, limbo: set<TaskId>, s': ScopeId)
    requires IdsOk(st) && SpawnMove(st, st', u, s, limbo)
    requires s' in st.scopes && ScopeOk(st.tasks, st.scopes, s')
    ensures s' in st'.scopes && ScopeOk(st'.tasks, st'.scopes, s')
  {
    hide LiveSet;
    SpawnLive(st.tasks, st'.tasks, u, s, s');
    assert forall v :: v in st.tasks ==> v in st'.tasks && st'.tasks[v] == st.tasks[v];
    assert u !in st.scopes[s'].forks;
    if st'.scopes[s'].forks != st.scopes[s'].forks {
      NoDupSnoc(st.scopes[s'].forks, u);
    }
  }

  lemma SpawnScopes(st: State, st': State, u: TaskId, s: ScopeId, limbo: set<TaskId>)
    requires ScopesOk(st.tasks, st.scopes) && IdsOk(st) && SpawnMove(st, st', u, s, limbo)
    ensures ScopesOk(st'.tasks, st'.scopes)
  {
    hide ScopeOk;
    forall v | v in st'.tasks ensures NestOk(st'.tasks, st'.scopes, v) {
      if v != u {
        assert NestOk(st.tasks, st.scopes, v);
        assert st'.tasks[v] == st.tasks[v];
      }
    }
    forall s' | s' in st'.scopes ensures ScopeOk(st'.tasks, st'.scopes, s') {
      SpawnScope1(st, st', u, s, limbo, s');
    }
  }

  lemma CoreSpawn(st: State, st': State, u: TaskId, s: ScopeId, limbo: set<TaskId>)
    requires Core(st, limbo) && SpawnMove(st, st', u, s, limbo)
    ensures Core(st', limbo)
  {
    SpawnQueues(st, st', u, s, limbo);
    SpawnRest(st, st', u, s, limbo);
    SpawnScopes(st, st', u, s, limbo);
    forall v | v in st'.tasks && Alive(st', v) && v !in limbo ensures FrameOk(st', v) {
      if v != u {
        SpawnFrame(st, st', u, s, limbo, v);
      }
    }
  }

  // ---- A scope is opened ----

  ghost predicate OpenMove(st: State, st': State, t: TaskId, s: ScopeId) {
    && s == st.next && st'.next == s + 1
    && t in st.tasks && Alive(st, t) && st.tasks[t].frame.Running?
    && t in st'.tasks && st'.tasks == st.tasks[t := st'.tasks[t]]
    && st'.tasks[t] == st.tasks[t].(nest := st.tasks[t].nest + [s], ret := st'.tasks[t].ret)
    && s in st'.scopes && st'.scopes == st.scopes[s := st'.scopes[s]]
    && (var p := Innermost(st.tasks[t]);
        st'.scopes[s] == Scope(0, None, [], NoReason, t, p,
          if p.Some? && p.value in st.scopes then st.scopes[p.value].level + 1 else 0,
          {s} + Context(st, t)))
    && st'.rq == st.rq && st'.io == st.io && st'.fds == st.fds && st'.timers == st.timers
    && st'.cur == st.cur && st'.chans == st.chans
  }

  lemma OpenQueues(st: State, st': State, t: TaskId, s: ScopeId)
    requires QueuesOk(st) && PlacesOk(st, {}) && IdsOk(st) && OpenMove(st, st', t, s)
    ensures QueuesOk(st') && PlacesOk(st', {}) && IdsOk(st')
  {
    forall v | v in st'.tasks ensures PlaceOk(st', v, {}) {
      assert PlaceOk(st, v, {});
    }
  }

  lemma OpenFrame(st: State, st': State, t: TaskId, s: ScopeId, v: TaskId)
    requires OpenMove(st, st', t, s) && IdsOk(st)
    requires v in st.tasks && FrameOk(st, v) && NestOk(st.tasks, st.scopes, v)
    ensures v in st'.tasks && FrameOk(st', v)
  {
    hide FrameOk, Context, NestOk;
    if v != t {
      OpenContext(st, st', t, s, v);
      SameFrame(st, st', v);
    } else {
      OpenSelf(st, st', t, s);
    }
  }

  lemma OpenSelf(st: State, st': State, t: TaskId, s: ScopeId)
    requires OpenMove(st, st', t, s) && FrameOk(st, t)
    ensures FrameOk(st', t)
  {
    hide Context;
  }

  // A frame's facts in a state with more scopes.
  lemma SameFrame(st: State, st': State, v: TaskId)
    requires v in st.tasks && v in st'.tasks && st'.tasks[v] == st.tasks[v] && FrameOk(st, v)
    requires st'.cur == st.cur && st'.timers == st.timers && st'.fds == st.fds
    requires Context(st', v) == Context(st, v)
    requires forall u :: u in st.tasks ==>
               && u in st'.tasks && st'.tasks[u].scope == st.tasks[u].scope
               && st'.tasks[u].awaitable == st.tasks[u].awaitable
               && st'.tasks[u].dropped == st.tasks[u].dropped && st'.tasks[u].done == st.tasks[u].done
               && st'.tasks[u].awaiter == st.tasks[u].awaiter
    requires forall s :: s in st.scopes ==> s in st'.scopes && st'.scopes[s] == st.scopes[s]
    ensures FrameOk(st', v)
  {
    hide Context;
  }

  lemma OpenContext(st: State, st': State, t: TaskId, s: ScopeId, v: TaskId)
    requires OpenMove(st, st', t, s) && IdsOk(st)
    requires v in st.tasks && v != t && NestOk(st.tasks, st.scopes, v)
    ensures v in st'.tasks && Context(st', v) == Context(st, v) && st'.tasks[v] == st.tasks[v]
    ensures forall s' :: s' in st.scopes ==> s' in st'.scopes && st'.scopes[s'] == st.scopes[s']
  {
    assert st'.tasks[v] == st.tasks[v];
  }

  lemma OpenLinks(st: State, st': State, t: TaskId, s: ScopeId)
    requires LinksOk(st) && OpenMove(st, st', t, s)
    ensures LinksOk(st')
  {
  }

  lemma OpenPoller(st: State, st': State, t: TaskId, s: ScopeId)
    requires PollerOk(st) && OpenMove(st, st', t, s)
    ensures PollerOk(st')
  {
  }

  lemma OpenNest(st: State, st': State, t: TaskId, s: ScopeId, v: TaskId)
    requires OpenMove(st, st', t, s) && IdsOk(st)
    requires v in st.tasks && NestOk(st.tasks, st.scopes, v)
    ensures NestOk(st'.tasks, st'.scopes, v)
  {
    hide Context;
    if v == t {
      var q := st.tasks[t].nest;
      assert st'.tasks[t].nest == q + [s] && s !in q;
      NoDupSnoc(q, s);
      hide NoDup;
      forall i | 0 <= i < |q + [s]|
        ensures (q + [s])[i] in st'.scopes && st'.scopes[(q + [s])[i]].owner == t
        ensures ParentOk(st'.tasks[t], i, st'.scopes[(q + [s])[i]].parent)
      {
        assert i < |q| ==> (q + [s])[i] == q[i] && q[i] != s && ParentOk(st.tasks[t], i, st.scopes[q[i]].parent);
        assert i > 0 ==> (q + [s])[i - 1] == q[i - 1];
      }
    }
  }

  lemma OpenScopeNew(st: State, st': State, t: TaskId, s: ScopeId)
    requires OpenMove(st, st', t, s) && IdsOk(st)
    requires forall v :: v in st.tasks ==> NestOk(st.tasks, st.scopes, v)
    ensures ScopeOk(st'.tasks, st'.scopes, s)
  {
    assert forall v :: v in st.tasks ==> st.tasks[v].scope != Some(s);
    assert LiveSet(st'.tasks, s) == {};
    var x := st.tasks[t];
    if x.nest != [] {
      assert x.nest[|x.nest| - 1] in st.scopes;
    }
  }

  lemma OpenScopeOld(st: State, st': State, t: TaskId, s: ScopeId, s': ScopeId)
    requires OpenMove(st, st', t, s) && IdsOk(st)
    requires s' in st.scopes && s' != s && ScopeOk(st.tasks, st.scopes, s')
    ensures s' in st'.scopes && ScopeOk(st'.tasks, st'.scopes, s')
  {
    assert LiveSet(st'.tasks, s') == LiveSet(st.tasks, s');
  }

  lemma CoreOpen(st: State, st': State, t: TaskId, s: ScopeId)
    requires Core(st, {}) && OpenMove(st, st', t, s)
    ensures Core(st', {})
  {
    hide QueuesOk, PlacesOk, LinksOk, PollerOk, IdsOk, FrameOk, NestOk, ScopeOk;
    OpenQueues(st, st', t, s);
    OpenLinks(st, st', t, s);
    OpenPoller(st, st', t, s);
    forall v | v in st'.tasks ensures NestOk(st'.tasks, st'.scopes, v) {
      OpenNest(st, st', t, s, v);
    }
    forall s' | s' in st'.scopes ensures ScopeOk(st'.tasks, st'.scopes, s') {
      if s' == s {
        OpenScopeNew(st, st', t, s);
      } else {
        OpenScopeOld(st, st', t, s, s');
      }
    }
    forall v | v in st'.tasks && Alive(st', v) ensures FrameOk(st', v) {
      OpenFrame(st, st', t, s, v);
    }
  }
}
