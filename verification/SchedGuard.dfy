// Why a task must be awaited from inside the scope it was forked into. The code does not
// check this. When the awaiter is outside, the scope's owner can join and free the fork
// between the awaiter's wake and its resumption, and the awaiter then reads a freed record.
module SchedGuard {
  import opened Common
  import opened SchedState
  import opened SchedSteps
  import opened SchedMachine

  // ---- One step of a run ----

  // What a run from st with the operations ops does.
  ghost predicate Does(st: State, ops: seq<Op>, o: Out) {
    Legal(st, ops) && Run(st, ops) == o
  }

  lemma DoesNothing(st: State)
    ensures Does(st, [], Next(st))
  {
    hide Enabled, Exec;
  }

  lemma DoesFirst(st: State, op: Op, st1: State, ops: seq<Op>, o: Out)
    requires Enabled(st, op) && Exec(st, op) == Next(st1) && Does(st1, ops, o)
    ensures Does(st, [op] + ops, o)
  {
    hide Enabled, Exec;
    assert ([op] + ops)[1..] == ops;
  }

  // Task t makes the call op.
  lemma Calls(st: State, t: TaskId, op: Op, st1: State, ops: seq<Op>, o: Out)
    requires st.cur == Some(t) && t in st.tasks && st.tasks[t].frame.Running?
    requires !op.Pump? && !op.Poll? && !op.Continue? && CallerOk(st, t, op)
    requires Call(st, t, op) == Next(st1) && Does(st1, ops, o)
    ensures Does(st, [op] + ops, o)
  {
    hide Call, CallerOk, Does;
    DoesFirst(st, op, st1, ops, o);
  }

  // The pump starts the first ready task.
  lemma Starts(st: State, ops: seq<Op>, o: Out)
    requires st.cur == None && Dispatch(st).Next? && Does(Dispatch(st).value, ops, o)
    ensures Does(st, [Pump] + ops, o)
  {
    hide Does, Call;
    DoesFirst(st, Pump, Dispatch(st).value, ops, o);
  }

  // ---- The state before the await ----

  // Task 0 owns the nested scopes 1 and 3; task 2 is in scope 1 and about to await task 4,
  // which is in scope 3 and ready, with task 0 behind it.
  ghost predicate Before(st: State) {
    && st.cur == Some(2) && st.rq == [4, 0] && st.io == [] && st.chans == map[] && st.fds == map[]
    && st.tasks.Keys == {0, 2, 4} && st.scopes.Keys == {1, 3}
    && st.tasks[0] == FreshTask(None, false).(nest := [1, 3], ret := Handle(4), inRq := true)
    && st.tasks[2] == FreshTask(Some(1), false)
    && st.tasks[4] == FreshTask(Some(3), true).(inRq := true)
    && st.scopes[1].anc == {1} && st.scopes[3].waiter == None && st.scopes[3].live == 1
    && st.scopes[3].forks == [4]
  }

  // The same before task 0 yields.
  ghost predicate Forked(st: State) {
    && st.cur == Some(0) && st.rq == [2, 4] && st.io == [] && st.chans == map[] && st.fds == map[]
    && st.tasks.Keys == {0, 2, 4} && st.scopes.Keys == {1, 3}
    && st.tasks[0] == FreshTask(None, false).(nest := [1, 3], ret := Handle(4))
    && st.tasks[2] == FreshTask(Some(1), false).(inRq := true)
    && st.tasks[4] == FreshTask(Some(3), true).(inRq := true)
    && st.scopes[1].anc == {1} && st.scopes[3].waiter == None && st.scopes[3].live == 1
    && st.scopes[3].forks == [4]
  }

  lemma Yields(st: State) returns (ops: seq<Op>, st': State)
    requires Forked(st)
    ensures Does(st, ops, Next(st')) && Before(st')
  {
    hide Does;
    var st1 := Yield(st, 0).value;
    st' := Dispatch(st1).value;
    DoesNothing(st');
    Starts(st1, [], Next(st'));
    Calls(st, 0, DoYield, st1, [Pump] + [], Next(st'));
    ops := [DoYield] + ([Pump] + []);
  }

  // Task 0 opens scope 1, starts task 2 there, opens scope 3 inside it, forks task 4 there,
  // and yields.
  lemma Opening() returns (ops: seq<Op>, st: State)
    ensures Does(Init, ops, Next(st)) && Before(st)
  {
    hide Does, Before, Forked;
    var st1 := ScopeOpen(Init, 0).value;
    var st2 := Spawn(st1, 0, 1, false).value;
    ops, st := Nests(st2);
    Calls(st1, 0, DoSpawn(1, false), st2, ops, Next(st));
    ops := [DoSpawn(1, false)] + ops;
    Calls(Init, 0, DoScopeOpen, st1, ops, Next(st));
    ops := [DoScopeOpen] + ops;
  }

  lemma Nests(st: State) returns (ops: seq<Op>, st': State)
    requires st.cur == Some(0) && st.rq == [2] && st.io == [] && st.chans == map[] && st.fds == map[]
    requires st.tasks.Keys == {0, 2} && st.scopes.Keys == {1} && st.next == 3
    requires st.tasks[0].(ret := Unit) == FreshTask(None, false).(nest := [1])
    requires st.tasks[2] == FreshTask(Some(1), false).(inRq := true) && st.scopes[1].anc == {1}
    ensures Does(st, ops, Next(st')) && Before(st')
  {
    hide Does, Before;
    var st1 := ScopeOpen(st, 0).value;
    ops, st' := Forks(st1);
    Calls(st, 0, DoScopeOpen, st1, ops, Next(st'));
    ops := [DoScopeOpen] + ops;
  }

  lemma Forks(st: State) returns (ops: seq<Op>, st': State)
    requires st.cur == Some(0) && st.rq == [2] && st.io == [] && st.chans == map[] && st.fds == map[]
    requires st.tasks.Keys == {0, 2} && st.scopes.Keys == {1, 3} && st.next == 4
    requires st.tasks[0].(ret := Unit) == FreshTask(None, false).(nest := [1, 3])
    requires st.tasks[2] == FreshTask(Some(1), false).(inRq := true)
    requires st.scopes[1].anc == {1} && 3 in st.scopes[3].anc
    requires st.scopes[3].waiter == None && st.scopes[3].live == 0 && st.scopes[3].forks == []
    ensures Does(st, ops, Next(st')) && Before(st')
  {
    hide Does, Before;
    var st1 := Spawn(st, 0, 3, true).value;
    ops, st' := Yields(st1);
    Calls(st, 0, DoSpawn(3, true), st1, ops, Next(st'));
    ops := [DoSpawn(3, true)] + ops;
  }

  // ---- After it ----

  // Task 0 joins scope 3 and frees task 4 while task 2 is ready but has not run.
  ghost predicate Ended(st: State) {
    && st.cur == None && st.rq == [0, 2] && st.io == [] && st.chans == map[]
    && st.tasks.Keys == {0, 2, 4} && 1 in st.scopes && 3 in st.scopes
    && st.tasks[0] == FreshTask(None, false).(nest := [1, 3], ret := Handle(4), inRq := true)
    && st.tasks[2] == FreshTask(Some(1), false).(frame := InAwait(4), inRq := true)
    && st.tasks[4].done && st.scopes[3].live == 0 && st.scopes[3].forks == [4]
  }

  lemma Joins(st: State) returns (ops: seq<Op>)
    requires Ended(st)
    ensures Does(st, ops, Fault(Dangling))
  {
    hide Does, Join;
    var st1 := Dispatch(st).value;
    SmallJoin(st1);
    ops := Resumes(Joined(st1));
    Calls(st1, 0, DoJoin(3), Joined(st1), ops, Fault(Dangling));
    ops := [DoJoin(3)] + ops;
    Starts(st, ops, Fault(Dangling));
    ops := [Pump] + ops;
  }

  // Task 0 yields to task 2, which is still inside its await.
  lemma Resumes(st: State) returns (ops: seq<Op>)
    requires st.cur == Some(0) && 0 in st.tasks && st.tasks[0].frame.Running? && st.rq == [2]
    requires 2 in st.tasks && st.tasks[2].frame == InAwait(4) && 4 !in st.tasks
    ensures Does(st, ops, Fault(Dangling))
  {
    hide Does;
    var st1 := Yield(st, 0).value;
    Faults(Dispatch(st1).value);
    Starts(st1, [Continue], Fault(Dangling));
    Calls(st, 0, DoYield, st1, [Pump] + [Continue], Fault(Dangling));
    ops := [DoYield] + ([Pump] + [Continue]);
  }

  function Joined(st: State): State
    requires 0 in st.tasks
  {
    st.(tasks := (st.tasks - {4})[0 := st.tasks[0].(frame := Running, ret := Unit, nest := [1])],
        scopes := st.scopes - {3})
  }

  lemma SmallJoin(st: State)
    requires 0 in st.tasks && 4 in st.tasks && st.tasks[4].done && 3 in st.scopes
    requires st.scopes[3].live == 0 && st.scopes[3].forks == [4] && st.chans == map[]
    requires st.tasks[0].nest == [1, 3]
    ensures Join(st, 0, 3) == Next(Joined(st))
  {
    assert FreeForks(st.tasks, [4]) == Next(st.tasks - {4}) by {
      assert [4][1..] == [];
      assert FreeForks(st.tasks - {4}, []) == Next(st.tasks - {4});
    }
    assert Without([1, 3], {3}) == [1] by {
      assert [1, 3][1..] == [3] && [3][1..] == [];
      assert Without([3], {3}) == Without([], {3});
    }
    assert FreeChans(st.chans, 3) == Next(st.chans) by {
      assert FreeChans(st.chans, 3).value == st.chans;
    }
    hide FreeForks, FreeChans, Without;
  }

  lemma Faults(st: State)
    requires st.cur == Some(2) && 2 in st.tasks && 4 !in st.tasks
    requires st.tasks[2].frame == InAwait(4)
    ensures Does(st, [Continue], Fault(Dangling))
  {
  }

  // Task 4 ends before task 0 has run again, and task 0 then joins.
  lemma Closing(st: State) returns (ops: seq<Op>)
    requires Before(st)
    ensures Await(st, 2, 4).Next? && Does(Await(st, 2, 4).value, ops, Fault(Dangling))
  {
    hide Does, Finish;
    var st1 := Await(st, 2, 4).value;
    var st2 := Dispatch(st1).value;
    Ends(st2);
    var st3 := Finish(st2, 4, 7).value;
    ops := Joins(st3);
    Calls(st2, 4, DoFinish(7), st3, ops, Fault(Dangling));
    ops := [DoFinish(7)] + ops;
    Starts(st1, ops, Fault(Dangling));
    ops := [Pump] + ops;
  }

  lemma Ends(st: State)
    requires st.cur == Some(4) && st.rq == [0] && st.io == [] && st.chans == map[]
    requires st.tasks.Keys == {0, 2, 4} && st.scopes.Keys == {1, 3}
    requires st.tasks[0] == FreshTask(None, false).(nest := [1, 3], ret := Handle(4), inRq := true)
    requires st.tasks[2] == FreshTask(Some(1), false).(frame := InAwait(4))
    requires st.tasks[4] == FreshTask(Some(3), true).(awaiter := Some(2))
    requires st.scopes[3].waiter == None && st.scopes[3].live == 1 && st.scopes[3].forks == [4]
    ensures Finish(st, 4, 7).Next? && Ended(Finish(st, 4, 7).value)
  {
  }

  // A reachable state from which an await breaks nothing but the rule that the awaiter is
  // inside the scope of the task it awaits, and from which a legal continuation then follows
  // a pointer to a freed record.
  lemma OutsideAwaitDangles() returns (opening: seq<Op>, st: State, closing: seq<Op>)
    ensures Legal(Init, opening) && Run(Init, opening) == Next(st)
    ensures st.cur == Some(2) && 2 in st.tasks && 4 in st.tasks
    ensures Unawaited(st, 4) && !AwaitedInside(st, 2, 4)
    ensures Await(st, 2, 4).Next? && Legal(Await(st, 2, 4).value, closing)
    ensures Run(Await(st, 2, 4).value, closing) == Fault(Dangling)
  {
    hide Legal, Run;
    opening, st := Opening();
    closing := Closing(st);
  }
}
