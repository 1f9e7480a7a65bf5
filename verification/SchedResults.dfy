// A task that has ended keeps its result until its scope is joined, whatever runs in between, and
// every await until then returns it.
module SchedResults {
  import opened Common
  import opened SchedState
  import opened SchedSteps
  import opened SchedMachine
  import opened SchedInvariant
  import opened SchedPollOps
  import opened SchedScopeOps
  import opened SchedFinish
  import opened SchedTheorems
  import opened SchedReturns
  import opened SchedTurns

  // u has ended with the given result and belongs to scope s.
  predicate EndedWith(st: State, u: TaskId, s: ScopeId, result: int) {
    && u in st.tasks && st.tasks[u].done && st.tasks[u].result == result
    && st.tasks[u].scope == Some(s)
  }

  lemma StepKeepsResult(st: State, op: Op, u: TaskId, s: ScopeId, result: int)
    requires Inv(st) && Enabled(st, op) && Exec(st, op).Next?
    requires EndedWith(st, u, s, result) && s in st.scopes && s in Exec(st, op).value.scopes
    ensures EndedWith(Exec(st, op).value, u, s, result)
  {
    hide Inv, Exec, Enabled, Carries;
    StepFrame(st, op);
    var st' := Exec(st, op).value;
    EndedFork(st, u, s);
    ForkThere(st', u, s);
    EndedApart(st, u);
    CarriesResult(st.tasks[u], st'.tasks[u]);
  }

  lemma CarriesResult(x: Task, y: Task)
    ensures Carries(x, y) ==> Ends(x, y)
  {
  }

  lemma EndedFork(st: State, u: TaskId, s: ScopeId)
    requires Inv(st) && u in st.tasks && st.tasks[u].done && st.tasks[u].scope == Some(s)
    requires s in st.scopes
    ensures u in st.scopes[s].forks
  {
    hide ChansOk, ClosedOk, QueuesOk, FramesOk, LinksOk, PollerOk, IdsOk;
    assert PlaceOk(st, u, {});
    assert ScopeOk(st.tasks, st.scopes, s);
  }

  lemma ForkThere(st: State, u: TaskId, s: ScopeId)
    requires Inv(st) && s in st.scopes && u in st.scopes[s].forks
    ensures u in st.tasks && st.tasks[u].scope == Some(s)
  {
    hide ChansOk, ClosedOk, QueuesOk, FramesOk, LinksOk, PollerOk, IdsOk, PlacesOk;
    assert ScopeOk(st.tasks, st.scopes, s);
  }

  lemma EndedApart(st: State, u: TaskId)
    requires Inv(st) && u in st.tasks && st.tasks[u].done
    ensures st.cur != Some(u)
  {
    hide ChansOk, ClosedOk, QueuesOk, FramesOk, LinksOk, PollerOk, IdsOk, ScopesOk;
    assert PlaceOk(st, u, {});
  }

  // A scope that is gone does not come back.
  lemma {:induction false} GoneStays(st: State, ops: seq<Op>, s: ScopeId)
    requires Inv(st) && Legal(st, ops) && Run(st, ops).Next? && s < st.next && s !in st.scopes
    ensures s !in Run(st, ops).value.scopes
    decreases |ops|
  {
    hide Inv, Exec, Enabled, Carries;
    if ops != [] {
      StepFrame(st, ops[0]);
      GoneStays(Exec(st, ops[0]).value, ops[1..], s);
    }
  }

  lemma {:induction false} RunKeepsResult(st: State, ops: seq<Op>, u: TaskId, s: ScopeId, result: int)
    requires Inv(st) && Legal(st, ops) && Run(st, ops).Next?
    requires EndedWith(st, u, s, result) && s in st.scopes && s in Run(st, ops).value.scopes
    ensures Inv(Run(st, ops).value) && EndedWith(Run(st, ops).value, u, s, result)
    decreases |ops|
  {
    hide Inv, Exec, Enabled, Carries, EndedWith;
    if ops != [] {
      StepFrame(st, ops[0]);
      ScopesBelow(st);
      var st1 := Exec(st, ops[0]).value;
      if s in st1.scopes {
        StepKeepsResult(st, ops[0], u, s, result);
        RunKeepsResult(st1, ops[1..], u, s, result);
      } else {
        GoneStays(st1, ops[1..], s);
      }
    }
  }

  // What a task ends with is what every later await of it returns, at once, after any run.
  lemma ResultArrives(st: State, t: TaskId, result: int, ops: seq<Op>, v: TaskId)
    requires Ready(st, t) && st.tasks[t].scope.Some? && st.tasks[t].nest == []
    requires st.tasks[t].awaitable && Finish(st, t, result).Next?
    requires Legal(Finish(st, t, result).value, ops) && Run(Finish(st, t, result).value, ops).Next?
    requires var st2 := Run(Finish(st, t, result).value, ops).value;
      st.tasks[t].scope.value in st2.scopes && Ready(st2, v) && CallerOk(st2, v, DoAwait(t))
    ensures var st2 := Run(Finish(st, t, result).value, ops).value;
      && Await(st2, v, t).Next? && Returned(st2, Await(st2, v, t).value, v, Result(result))
  {
    hide Inv, Finish, Run, Legal, CallerOk, Returned, AwaitedBy;
    var st1, s := Finish(st, t, result).value, st.tasks[t].scope.value;
    FinishSafe(st, t, result);
    FinishWakes(st, t, result);
    RunKeepsResult(st1, ops, t, s, result);
    var st2 := Run(st1, ops).value;
    NotDropped(st2, t);
    AwaitAtOnce(st2, v, t);
  }

  lemma NotDropped(st: State, u: TaskId)
    requires Inv(st) && u in st.tasks && st.tasks[u].done
    ensures st.tasks[u].awaitable && !st.tasks[u].dropped
  {
    hide ChansOk, ClosedOk, QueuesOk, FramesOk, LinksOk, PollerOk, IdsOk, ScopesOk;
    assert PlaceOk(st, u, {});
  }
}
