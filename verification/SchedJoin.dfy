// Structured nesting: while a task that is lexically inside a scope can still run, the scope
// cannot be joined. From this, freeing a scope's records at its join leaves no pointer to
// them anywhere.
module SchedJoin {
  import opened Common
  import opened SchedState
  import opened SchedSteps
  import opened SchedMachine
  import opened SchedInvariant

  // A scope that its owner's join cannot get past: a task of it is live, or its owner still
  // has a scope open inside it.
  predicate Pinned(st: State, s: ScopeId) {
    && s in st.scopes
    && (st.scopes[s].live > 0 ||
        (st.scopes[s].owner in st.tasks
         && var q := st.tasks[st.scopes[s].owner].nest; q != [] && q[|q| - 1] != s))
  }

  // Around an open scope of t are t's outer open scopes and whatever is around t's own scope.
  lemma {:induction false} AncSplit(st: State, t: TaskId, i: nat, a: ScopeId)
    requires ScopesOk(st.tasks, st.scopes)
    requires t in st.tasks && i < |st.tasks[t].nest|
    ensures st.tasks[t].nest[i] in st.scopes
    ensures st.tasks[t].scope.Some? ==>
      && st.tasks[t].scope.value in st.scopes
      && st.scopes[st.tasks[t].scope.value].level < st.scopes[st.tasks[t].nest[i]].level
    ensures a in st.scopes[st.tasks[t].nest[i]].anc ==>
      || (exists j :: 0 <= j <= i && st.tasks[t].nest[j] == a)
      || (st.tasks[t].scope.Some? && a in st.scopes[st.tasks[t].scope.value].anc)
    decreases i
  {
    hide ScopesOk, NestOk, ScopeOk;
    ScopeFacts(st, t, i);
    var q := st.tasks[t].nest;
    ScopeAround(st, t, i);
    if i > 0 {
      AncSplit(st, t, i - 1, a);
    }
    if a == q[i] {
      assert exists j :: 0 <= j <= i && q[j] == a;
    }
  }

  // What is around the i-th open scope of t.
  lemma ScopeAround(st: State, t: TaskId, i: nat)
    requires t in st.tasks && i < |st.tasks[t].nest| && NestOk(st.tasks, st.scopes, t)
    requires st.tasks[t].nest[i] in st.scopes
    requires ScopeOk(st.tasks, st.scopes, st.tasks[t].nest[i])
    ensures var x, s := st.tasks[t], st.tasks[t].nest[i];
      var p := if i == 0 then x.scope else Some(x.nest[i - 1]);
      if p.Some? then
        && p.value in st.scopes && st.scopes[p.value].level < st.scopes[s].level
        && st.scopes[s].anc == {s} + st.scopes[p.value].anc
      else st.scopes[s].anc == {s}
  {
    hide LiveSet;
    assert ParentOk(st.tasks[t], i, st.scopes[st.tasks[t].nest[i]].parent);
  }

  lemma ScopeFacts(st: State, t: TaskId, i: nat)
    requires ScopesOk(st.tasks, st.scopes)
    requires t in st.tasks && i < |st.tasks[t].nest|
    ensures NestOk(st.tasks, st.scopes, t)
    ensures st.tasks[t].nest[i] in st.scopes
    ensures ScopeOk(st.tasks, st.scopes, st.tasks[t].nest[i])
  {
    assert NestOk(st.tasks, st.scopes, t);
  }

  lemma LiveHasTask(st: State, t: TaskId, s: ScopeId)
    requires ScopesOk(st.tasks, st.scopes)
    requires Alive(st, t) && st.tasks[t].scope == Some(s)
    ensures s in st.scopes && st.scopes[s].live > 0
    ensures NestOk(st.tasks, st.scopes, t) && ScopeOk(st.tasks, st.scopes, s)
  {
    assert NestOk(st.tasks, st.scopes, t);
    assert ScopeOk(st.tasks, st.scopes, s);
    assert t in LiveSet(st.tasks, s);
  }

  lemma {:induction false} AncestorPinned(st: State, t: TaskId, b: ScopeId, a: ScopeId)
    requires ScopesOk(st.tasks, st.scopes)
    requires Alive(st, t) && st.tasks[t].scope == Some(b)
    requires b in st.scopes && a in st.scopes[b].anc
    ensures Pinned(st, a)
    decreases st.scopes[b].level
  {
    hide ScopesOk, NestOk, ScopeOk;
    LiveHasTask(st, t, b);
    if a == b {
      assert Pinned(st, a);
    } else {
      var o, i := ScopeOwner(st, b);
      ScopeFacts(st, o, i);
      ScopeAround(st, o, i);
      if i == 0 {
        AncestorPinned(st, o, st.tasks[o].scope.value, a);
      } else {
        OuterPinned(st, o, b, i, a);
        AncSplit(st, o, i, a);
        if a !in st.tasks[o].nest[..i] {
          AncestorPinned(st, o, st.tasks[o].scope.value, a);
        }
      }
    }
  }

  // The owner of a scope that has a live task is live, and has it open.
  lemma ScopeOwner(st: State, b: ScopeId) returns (o: TaskId, i: nat)
    requires ScopesOk(st.tasks, st.scopes) && b in st.scopes && ScopeOk(st.tasks, st.scopes, b)
    ensures Alive(st, o) && o == st.scopes[b].owner
    ensures i < |st.tasks[o].nest| && st.tasks[o].nest[i] == b
  {
    hide ScopeOk;
    assert st.scopes[b].owner in st.tasks && b in st.tasks[st.scopes[b].owner].nest by {
      OwnerHas(st, b);
    }
    o := st.scopes[b].owner;
    assert NestOk(st.tasks, st.scopes, o);
    i :| 0 <= i < |st.tasks[o].nest| && st.tasks[o].nest[i] == b;
  }

  lemma OwnerHas(st: State, b: ScopeId)
    requires b in st.scopes && ScopeOk(st.tasks, st.scopes, b)
    ensures st.scopes[b].owner in st.tasks && b in st.tasks[st.scopes[b].owner].nest
  {
    hide LiveSet;
  }

  // What is around the i-th open scope of o is an outer open scope, which is pinned by it, or
  // is around o's own scope.
  lemma OuterPinned(st: State, o: TaskId, b: ScopeId, i: nat, a: ScopeId)
    requires ScopesOk(st.tasks, st.scopes) && o in st.tasks
    requires 0 < i < |st.tasks[o].nest| && st.tasks[o].nest[i] == b
    requires st.tasks[o].nest[i - 1] in st.scopes && a in st.scopes[st.tasks[o].nest[i - 1]].anc
    ensures a in st.tasks[o].nest[..i] ==> Pinned(st, a)
    ensures a !in st.tasks[o].nest[..i] ==>
      && st.tasks[o].scope.Some? && st.tasks[o].scope.value in st.scopes
      && a in st.scopes[st.tasks[o].scope.value].anc
  {
    hide ScopesOk, NestOk, ScopeOk;
    var q := st.tasks[o].nest;
    AncSplit(st, o, i - 1, a);
    if j :| 0 <= j <= i - 1 && q[j] == a {
      assert q[..i][j] == a;
    }
    if a in q[..i] {
      var j :| 0 <= j < i && q[..i][j] == a;
      ScopeFacts(st, o, j);
      NestFacts(st, o, j);
    }
  }

  lemma NestFacts(st: State, o: TaskId, j: nat)
    requires o in st.tasks && NestOk(st.tasks, st.scopes, o) && j < |st.tasks[o].nest| - 1
    ensures var q := st.tasks[o].nest;
      q[j] in st.scopes && st.scopes[q[j]].owner == o && q[|q| - 1] != q[j]
  {
  }

  // Everything around a live task's point of execution is its own open scope, or is pinned.
  lemma ContextPinned(st: State, t: TaskId, a: ScopeId)
    requires ScopesOk(st.tasks, st.scopes)
    requires Alive(st, t) && a in Context(st, t)
    ensures a in st.scopes
    ensures a in st.tasks[t].nest || Pinned(st, a)
  {
    hide ScopesOk;
    var q := st.tasks[t].nest;
    if q == [] {
      AncestorPinned(st, t, st.tasks[t].scope.value, a);
    } else {
      AncSplit(st, t, |q| - 1, a);
      if j :| 0 <= j <= |q| - 1 && q[j] == a {
        ScopeFacts(st, t, j);
      } else {
        AncestorPinned(st, t, st.tasks[t].scope.value, a);
      }
    }
  }

  // ---- The records of a joined scope are freed ----

  // t joins its innermost scope s, all of whose tasks have ended.
  ghost predicate JoinReady(st: State, t: TaskId, s: ScopeId) {
    && Alive(st, t) && st.cur == Some(t)
    && s in st.scopes && st.scopes[s].live == 0
    && st.tasks[t].nest != [] && st.tasks[t].nest[|st.tasks[t].nest| - 1] == s
    && (st.tasks[t].frame.Running? || st.tasks[t].frame == InJoin(s))
    && st.scopes[s].waiter == None
  }

  ghost predicate JoinMove(st: State, st': State, t: TaskId, s: ScopeId) {
    && JoinReady(st, t, s)
    && (forall v :: v in st'.tasks <==> v in st.tasks && v !in st.scopes[s].forks)
    && (forall v :: v in st'.tasks && v != t ==> st'.tasks[v] == st.tasks[v])
    && t in st'.tasks
    && st'.tasks[t] == st.tasks[t].(frame := Running, ret := st'.tasks[t].ret,
                                    nest := st.tasks[t].nest[..|st.tasks[t].nest| - 1])
    && st'.scopes == st.scopes - {s}
    && st'.rq == st.rq && st'.io == st.io && st'.fds == st.fds && st'.timers == st.timers
    && st'.cur == st.cur && st'.next == st.next
    && st'.chans.Keys <= st.chans.Keys
  }

  // No live task has s as its own scope, and every task of s is in its fork list.
  lemma JoinTasks(st: State, t: TaskId, s: ScopeId, v: TaskId)
    requires ScopesOk(st.tasks, st.scopes) && JoinReady(st, t, s) && v in st.tasks
    requires PlaceOk(st, v, {})
    ensures v in st.scopes[s].forks <==> st.tasks[v].scope == Some(s)
    ensures v in st.scopes[s].forks ==> !Alive(st, v) && st.tasks[v].nest == []
    ensures v != t ==> s !in st.tasks[v].nest
    ensures NestOk(st.tasks, st.scopes, v)
  {
    hide ScopesOk;
    if Alive(st, v) && st.tasks[v].scope == Some(s) {
      LiveHasTask(st, v, s);
      assert false;
    }
    JoinScopeFacts(st, s, v);
    if j :| 0 <= j < |st.tasks[v].nest| && st.tasks[v].nest[j] == s {
      ScopeFacts(st, t, |st.tasks[t].nest| - 1);
      ScopeFacts(st, v, j);
    }
  }

  lemma JoinScopeFacts(st: State, s: ScopeId, v: TaskId)
    requires ScopesOk(st.tasks, st.scopes) && s in st.scopes && v in st.tasks
    ensures ScopeOk(st.tasks, st.scopes, s) && NestOk(st.tasks, st.scopes, v)
  {
  }

  lemma NotPinned(st: State, t: TaskId, s: ScopeId)
    requires ScopesOk(st.tasks, st.scopes) && JoinReady(st, t, s)
    ensures st.scopes[s].owner == t && !Pinned(st, s)
  {
    hide ScopesOk, ScopeOk;
    ScopeFacts(st, t, |st.tasks[t].nest| - 1);
  }

  // What a suspended task refers to is not freed.

  lemma JoinTarget(st: State, t: TaskId, s: ScopeId, v: TaskId, u: TaskId)
    requires ScopesOk(st.tasks, st.scopes) && JoinReady(st, t, s)
    requires Alive(st, v) && v != t && u in st.tasks && PlaceOk(st, u, {})
    requires AwaitedInside(st, v, u) ||
             (exists s' :: s' in st.scopes && st.scopes[s'].owner == v
                           && st.tasks[u].scope == Some(s'))
    requires PlaceOk(st, v, {})
    ensures u !in st.scopes[s].forks
  {
    hide ScopesOk;
    JoinTasks(st, t, s, u);
    JoinTasks(st, t, s, v);
    NotPinned(st, t, s);
    if AwaitedInside(st, v, u) {
      ContextPinned(st, v, st.tasks[u].scope.value);
    }
  }

  lemma JoinContext(st: State, st': State, t: TaskId, s: ScopeId, v: TaskId)
    requires ScopesOk(st.tasks, st.scopes) && JoinMove(st, st', t, s)
    requires Alive(st, v) && v != t && PlaceOk(st, v, {})
    ensures v in st'.tasks && st'.tasks[v] == st.tasks[v]
    ensures Context(st', v) == Context(st, v)
  {
    hide ScopesOk;
    JoinTasks(st, t, s, v);
  }

  lemma JoinLinkFrame(st: State, st': State, t: TaskId, s: ScopeId, v: TaskId)
    requires ScopesOk(st.tasks, st.scopes) && PlacesOk(st, {}) && JoinMove(st, st', t, s)
    requires Alive(st, v) && v != t && LinkFrameOk(st, v)
    ensures v in st'.tasks && LinkFrameOk(st', v)
  {
    hide ScopesOk;
    JoinContext(st, st', t, s, v);
    JoinTasks(st, t, s, v);
    hide Context;
    if st.tasks[v].frame.InAwait? {
      var u := st.tasks[v].frame.target;
      assert PlaceOk(st, u, {});
      JoinTarget(st, t, s, v, u);
      assert u in st'.tasks;
    }
  }

  lemma JoinDeadlineFrame(st: State, st': State, t: TaskId, s: ScopeId, v: TaskId)
    requires ScopesOk(st.tasks, st.scopes) && PlacesOk(st, {}) && JoinMove(st, st', t, s)
    requires Alive(st, v) && v != t && DeadlineFrameOk(st, v)
    ensures v in st'.tasks && DeadlineFrameOk(st', v)
  {
    hide ScopesOk;
    JoinContext(st, st', t, s, v);
    hide Context;
    var f := st.tasks[v].frame;
    if f.InDeadline? || f.InDeadlineYield? {
      assert PlaceOk(st, f.child, {});
      assert DeadlineLink(st, v, f.scope, f.child);
      JoinTarget(st, t, s, v, f.child);
      NotPinned(st, t, s);
      assert f.child in st'.tasks;
    }
  }

  lemma JoinFrame(st: State, st': State, t: TaskId, s: ScopeId, v: TaskId)
    requires ScopesOk(st.tasks, st.scopes) && PlacesOk(st, {}) && JoinMove(st, st', t, s)
    requires Alive(st, v) && FrameOk(st, v)
    ensures v in st'.tasks && FrameOk(st', v)
  {
    hide ScopesOk;
    if v != t {
      JoinContext(st, st', t, s, v);
      JoinLinkFrame(st, st', t, s, v);
      JoinDeadlineFrame(st, st', t, s, v);
      hide LinkFrameOk, DeadlineFrameOk, Context;
    } else {
      hide Context;
    }
  }

  lemma JoinQueues(st: State, st': State, t: TaskId, s: ScopeId)
    requires QueuesOk(st) && PlacesOk(st, {}) && IdsOk(st) && ScopesOk(st.tasks, st.scopes)
    requires JoinMove(st, st', t, s)
    ensures QueuesOk(st') && PlacesOk(st', {}) && IdsOk(st')
  {
    hide ScopesOk;
    forall v | v in st.tasks ensures v in st.scopes[s].forks ==> !Alive(st, v) {
      JoinTasks(st, t, s, v);
    }
    forall v | v in st'.tasks ensures PlaceOk(st', v, {}) {
      assert PlaceOk(st, v, {});
    }
    forall v | v in st.tasks && v !in st'.tasks ensures !st.tasks[v].inRq && !st.tasks[v].onIo {
      assert PlaceOk(st, v, {});
    }
  }

  lemma JoinLinks(st: State, st': State, t: TaskId, s: ScopeId)
    requires PlacesOk(st, {}) && ScopesOk(st.tasks, st.scopes) && LinksOk(st)
    requires JoinMove(st, st', t, s)
    ensures LinksOk(st')
  {
    hide ScopesOk;
    forall v | v in st.tasks ensures v in st.scopes[s].forks ==> !Alive(st, v) {
      JoinTasks(st, t, s, v);
    }
    hide PlacesOk;
  }

  lemma JoinPoller(st: State, st': State, t: TaskId, s: ScopeId)
    requires PlacesOk(st, {}) && ScopesOk(st.tasks, st.scopes) && PollerOk(st)
    requires JoinMove(st, st', t, s)
    ensures PollerOk(st')
  {
    hide ScopesOk;
    forall v | v in st.tasks ensures v in st.scopes[s].forks ==> !Alive(st, v) {
      JoinTasks(st, t, s, v);
    }
    hide PlacesOk;
  }

  lemma JoinNest(st: State, st': State, t: TaskId, s: ScopeId, v: TaskId)
    requires ScopesOk(st.tasks, st.scopes) && PlacesOk(st, {}) && JoinMove(st, st', t, s)
    requires v in st'.tasks
    ensures NestOk(st'.tasks, st'.scopes, v)
  {
    hide ScopesOk;
    assert PlaceOk(st, v, {});
    JoinTasks(st, t, s, v);
    if v == t {
      var q := st.tasks[t].nest;
      forall i | 0 <= i < |q| - 1
        ensures q[i] in st'.scopes && st'.scopes[q[i]].owner == t
        ensures ParentOk(st'.tasks[t], i, st'.scopes[q[i]].parent)
      {
        assert ParentOk(st.tasks[t], i, st.scopes[q[i]].parent);
        assert q[i] != q[|q| - 1];
      }
    } else {
      assert forall i :: 0 <= i < |st.tasks[v].nest| ==> st.tasks[v].nest[i] != s;
    }
  }

  lemma JoinParent(st: State, t: TaskId, s: ScopeId, s': ScopeId)
    requires ScopesOk(st.tasks, st.scopes) && PlacesOk(st, {}) && JoinReady(st, t, s)
    requires s' in st.scopes && s' != s
    ensures st.scopes[s'].parent != Some(s)
  {
    hide ScopesOk;
    JoinScopeFacts(st, s', t);
    var o := st.scopes[s'].owner;
    JoinScopeFacts(st, s', o);
    var i :| 0 <= i < |st.tasks[o].nest| && st.tasks[o].nest[i] == s';
    assert ParentOk(st.tasks[o], i, st.scopes[s'].parent);
    NotPinned(st, t, s);
    if i == 0 {
      if st.tasks[o].scope == Some(s) {
        LiveHasTask(st, o, s);
      }
    } else {
      ScopeFacts(st, o, i - 1);
    }
  }

  lemma JoinLive(st: State, st': State, t: TaskId, s: ScopeId, s': ScopeId)
    requires ScopesOk(st.tasks, st.scopes) && PlacesOk(st, {}) && JoinMove(st, st', t, s)
    requires s' != s
    ensures LiveSet(st'.tasks, s') == LiveSet(st.tasks, s')
    ensures forall v :: v in st'.tasks && st'.tasks[v].scope == Some(s')
                        <==> v in st.tasks && st.tasks[v].scope == Some(s')
  {
    hide ScopesOk;
    forall v | v in st.tasks ensures v in st.scopes[s].forks <==> st.tasks[v].scope == Some(s) {
      assert PlaceOk(st, v, {});
      JoinTasks(st, t, s, v);
    }
    hide PlacesOk;
  }

  lemma JoinScope1(st: State, st': State, t: TaskId, s: ScopeId, s': ScopeId)
    requires ScopesOk(st.tasks, st.scopes) && PlacesOk(st, {}) && JoinMove(st, st', t, s)
    requires s' in st'.scopes
    ensures ScopeOk(st'.tasks, st'.scopes, s')
  {
    hide ScopesOk, LiveSet, PlaceOk, NestOk;
    var o := st.scopes[s'].owner;
    JoinScopeFacts(st, s', t);
    JoinParent(st, t, s, s');
    JoinLive(st, st', t, s, s');
    assert PlaceOk(st, o, {});
    JoinTasks(st, t, s, o);
    hide PlacesOk;
    OwnerStays(st, st', t, s, s');
  }

  lemma OwnerStays(st: State, st': State, t: TaskId, s: ScopeId, s': ScopeId)
    requires JoinMove(st, st', t, s) && s' in st.scopes && s' != s
    requires var o := st.scopes[s'].owner;
      o in st.tasks && s' in st.tasks[o].nest && o !in st.scopes[s].forks
    ensures s' in st'.scopes && st'.scopes[s'] == st.scopes[s']
    ensures var o := st'.scopes[s'].owner; o in st'.tasks && s' in st'.tasks[o].nest
  {
    var o := st.scopes[s'].owner;
    if o == t {
      var q := st.tasks[t].nest;
      var i :| 0 <= i < |q| && q[i] == s';
      assert q[..|q| - 1][i] == s';
    }
  }

  lemma CoreJoin(st: State, st': State, t: TaskId, s: ScopeId)
    requires Core(st, {}) && JoinMove(st, st', t, s)
    ensures Core(st', {})
  {
    hide QueuesOk, PlacesOk, LinksOk, PollerOk, IdsOk, FrameOk, NestOk, ScopeOk, LiveSet;
    JoinQueues(st, st', t, s);
    JoinLinks(st, st', t, s);
    JoinPoller(st, st', t, s);
    forall v | v in st'.tasks ensures NestOk(st'.tasks, st'.scopes, v) {
      JoinNest(st, st', t, s, v);
    }
    forall s' | s' in st'.scopes ensures ScopeOk(st'.tasks, st'.scopes, s') {
      JoinScope1(st, st', t, s, s');
    }
    forall v | v in st'.tasks && Alive(st', v) ensures FrameOk(st', v) {
      JoinFrame(st, st', t, s, v);
    }
  }
}
