// The with_timeout core: arming the deadline, and classifying what woke its owner.
module SchedDeadline {
  import opened Common
  import opened SchedState
  import opened SchedSteps
  import opened SchedMachine
  import opened SchedInvariant
  import opened SchedCore
  import opened SchedLife
  import opened SchedJoin
  import opened SchedPollOps
  import opened SchedDrop
  import opened SchedScopeOps

  // ---- Arming ----

  // The owner armed and suspended, not yet linked as its child's awaiter.
  function Armed(st: State, t: TaskId, s: ScopeId, u: TaskId, tid: TimerId): State
    requires t in st.tasks
  {
    var x := st.tasks[t].(park := OnTimer, frame := InDeadline(s, u), timer := tid,
                          timerDead := false, deadlineChild := Some(u), expired := false,
                          onIo := true);
    Put(st, t, x).(io := [t] + st.io, timers := st.timers[tid := t], cur := None)
  }

  // The owner of a scope is not inside it.
  lemma OwnerOutside(st: State, t: TaskId, s: ScopeId)
    requires Core(st, {}) && t in st.tasks && s in st.scopes && st.scopes[s].owner == t
    ensures st.tasks[t].scope != Some(s)
  {
    hide QueuesOk, PlacesOk, FramesOk, LinksOk, PollerOk, IdsOk, ScopesOk;
    JoinScopeFacts(st, s, t);
    var i :| 0 <= i < |st.tasks[t].nest| && st.tasks[t].nest[i] == s;
    AncSplit(st, t, i, s);
  }

  lemma ArmedCore(st: State, t: TaskId, s: ScopeId, u: TaskId, tid: TimerId)
    requires Ready(st, t) && tid !in st.timers
    ensures Core(Armed(st, t, s, u, tid), {t})
  {
    hide Core, ChansOk, ClosedOk;
    RunningFacts(st, t);
    hide FrameOk;
    NoDupSnoc(st.io, t);
    var st1 := Armed(st, t, s, u, tid);
    assert OneTask(st, st1, t, {t});
    hide OneTask;
    CoreOneTask(st, st1, t, {}, {t});
  }

  // The record of a task that has just parked on its deadline and on u's awaiter link.
  lemma DeadlineFrame(st: State, t: TaskId, s: ScopeId, u: TaskId, tid: TimerId)
    requires st.cur == Some(t) && Alive(st, t) && FrameOk(st, t) && PlaceOk(st, t, {})
    requires !st.tasks[t].inRq && !st.tasks[t].onIo && u != t && st.tasks[t].frame.Running?
    requires s in st.scopes && st.scopes[s].owner == t
    requires Alive(st, u) && st.tasks[u].awaitable && st.tasks[u].scope == Some(s)
    ensures var st2 := Linked(Armed(st, t, s, u, tid), u, Some(t));
      t in st2.tasks && FrameOk(st2, t) && PlaceOk(st2, t, {})
  {
  }

  lemma DeadlinePark(st: State, t: TaskId, s: ScopeId, u: TaskId, tid: TimerId)
    requires Ready(st, t) && tid !in st.timers && u != t
    requires s in st.scopes && st.scopes[s].owner == t
    requires Alive(st, u) && st.tasks[u].awaitable && st.tasks[u].scope == Some(s)
    requires Unawaited(st, u)
    ensures Inv(Linked(Armed(st, t, s, u, tid), u, Some(t)))
  {
    hide Core, ChansOk, ClosedOk, NoRefs, FrameOk, PlaceOk, Unawaited;
    RunningFacts(st, t);
    ArmedCore(st, t, s, u, tid);
    var st1 := Armed(st, t, s, u, tid);
    var st2 := Linked(st1, u, Some(t));
    DeadlineFrame(st, t, s, u, tid);
    LinkedCore(st, st1, t, u);
    SuspendedChans(st, st2, t);
  }

  lemma AwaitDeadlineIs(st: State, t: TaskId, s: ScopeId, u: TaskId, tid: TimerId)
    requires t in st.tasks && t !in st.io && u in st.tasks && st.tasks[u].awaitable && u != t
    requires s in st.scopes
    ensures AwaitDeadline(st, t, s, u, Some(tid)) ==
              Next(Linked(Armed(st, t, s, u, tid), u, Some(t)))
  {
    var x := st.tasks[t].(park := OnTimer, frame := InDeadline(s, u), timer := tid,
                          timerDead := false, deadlineChild := Some(u), expired := false);
    PutPut(st, t, x, x.(onIo := true));
  }

  // The owner is in the poller's list with its timer armed, and is its child's awaiter.
  ghost predicate DeadlineParked(st: State, st': State, t: TaskId, s: ScopeId, u: TaskId,
                                 tid: TimerId) {
    && t in st.tasks && st'.tasks.Keys == st.tasks.Keys && u in st'.tasks
    && st'.io == [t] + st.io && st'.timers == st.timers[tid := t] && st'.cur == None
    && st'.tasks[u].awaiter == Some(t)
    && st'.tasks[t].frame == InDeadline(s, u) && !st'.tasks[t].expired
    && (forall v :: v in st.tasks && v != t && v != u ==> st'.tasks[v] == st.tasks[v])
    && st'.rq == st.rq && st'.fds == st.fds && st'.scopes == st.scopes && st'.chans == st.chans
  }

  lemma AwaitDeadlineSafe(st: State, t: TaskId, s: ScopeId, u: TaskId, arm: Option<TimerId>)
    requires Ready(st, t) && ArmOk(st, arm)
    requires s in st.scopes && u in st.tasks ==>
               && st.scopes[s].owner == t && st.tasks[u].scope == Some(s)
               && Alive(st, u) && Unawaited(st, u)
    ensures Safe(AwaitDeadline(st, t, s, u, arm))
    ensures AwaitDeadline(st, t, s, u, arm).Abort? <==>
              s !in st.scopes || u !in st.tasks || !st.tasks[u].awaitable || arm == None
    ensures AwaitDeadline(st, t, s, u, arm).Next? ==>
              DeadlineParked(st, AwaitDeadline(st, t, s, u, arm).value, t, s, u, arm.value)
  {
    hide Core, ChansOk, ClosedOk, Unawaited;
    RunningFacts(st, t);
    hide FrameOk, NoRefs;
    if s in st.scopes && u in st.tasks && st.tasks[u].awaitable && arm.Some? {
      OwnerOutside(st, t, s);
      AwaitDeadlineIs(st, t, s, u, arm.value);
      hide AwaitDeadline;
      DeadlinePark(st, t, s, u, arm.value);
    }
  }

  // ---- Classifying ----

  // The owner is back in its own code, and no longer its child's awaiter.
  function Reopened(st: State, t: TaskId, u: TaskId): State
    requires t in st.tasks && u in st.tasks
  {
    Put(Linked(st, u, None), t, Linked(st, u, None).tasks[t].(frame := Running,
                                                              deadlineChild := None))
  }

  ghost predicate DeadlineResumes(st: State, t: TaskId, s: ScopeId, u: TaskId) {
    && Inv(st) && st.cur == Some(t) && t in st.tasks
    && (st.tasks[t].frame == InDeadline(s, u) || st.tasks[t].frame == InDeadlineYield(s, u))
  }

  // While an owner classifies, no other task waits for its child.
  lemma OnlyOwnerWaits(st: State, t: TaskId, s: ScopeId, u: TaskId, v: TaskId)
    requires DeadlineResumes(st, t, s, u)
    requires v in st.tasks && Alive(st, v) && v != t
    requires RefersTo(st.tasks[v].frame, u)
    ensures st.tasks[v].frame.InAwait? && Woken(st, v) && u in st.tasks && st.tasks[u].done
  {
    hide Core, ChansOk, ClosedOk, Context;
    TaskFacts(st, v);
    TaskFacts(st, t);
  }

  lemma ReopenedLinked(st: State, t: TaskId, s: ScopeId, u: TaskId)
    requires DeadlineResumes(st, t, s, u)
    ensures u in st.tasks && Core(Linked(st, u, None), {})
  {
    hide Core, ChansOk, ClosedOk, Context;
    OwnFacts(st, t);
    var st1 := Linked(st, u, None);
    forall v | v in st.tasks && Alive(st, v) && RefersTo(st.tasks[v].frame, u)
      ensures FrameOk(st1, v)
    {
      ReopenedFrame(st, t, s, u, v);
    }
    hide FrameOk;
    CoreAwaiter(st, st1, u, {});
  }

  lemma ReopenedFrame(st: State, t: TaskId, s: ScopeId, u: TaskId, v: TaskId)
    requires DeadlineResumes(st, t, s, u)
    requires u in st.tasks && v in st.tasks && Alive(st, v) && RefersTo(st.tasks[v].frame, u)
    ensures FrameOk(Linked(st, u, None), v)
  {
    hide Core, ChansOk, ClosedOk, Context;
    var st1 := Linked(st, u, None);
    TaskFacts(st, v);
    if v != t {
      OnlyOwnerWaits(st, t, s, u, v);
      assert Context(st1, v) == Context(st, v) by {
        ContextFrame(st, st1, v);
      }
    }
  }

  // The state every branch of the classification starts from.
  lemma ReopenedReady(st: State, t: TaskId, s: ScopeId, u: TaskId)
    requires DeadlineResumes(st, t, s, u)
    ensures u in st.tasks && u != t && Ready(Reopened(st, t, u), t)
    ensures DeadlineLink(st, t, s, u) && st.tasks[t].timerDead
    ensures st.tasks[u].done || st.tasks[t].expired
  {
    hide Core, ChansOk, ClosedOk, Context;
    OwnFacts(st, t);
    OwnerOutside(st, t, s);
    ReopenedLinked(st, t, s, u);
    var st1 := Linked(st, u, None);
    assert Inv(st1) by {
      InvLinked(st, u, None);
    }
    var x := st1.tasks[t].(frame := Running, deadlineChild := None);
    ReopenedReturn(st1, t, s, u, x);
  }

  lemma InvLinked(st: State, u: TaskId, a: Option<TaskId>)
    requires Inv(st) && u in st.tasks && Core(Linked(st, u, a), {})
    ensures Inv(Linked(st, u, a))
  {
    hide Core;
    InvChans(st, Linked(st, u, a));
  }

  lemma ReopenedReturn(st1: State, t: TaskId, s: ScopeId, u: TaskId, x: Task)
    requires DeadlineResumes(st1, t, s, u) && u in st1.tasks && st1.tasks[u].awaiter == None
    requires x == st1.tasks[t].(frame := Running, deadlineChild := None)
    ensures Inv(Put(st1, t, x))
  {
    hide Core, ChansOk, ClosedOk, Context;
    OwnFacts(st1, t);
    OwnPoller(st1, t);
    OwnLinks(st1, t);
    var st' := Put(st1, t, x);
    assert FrameOk(st', t);
    hide FrameOk;
    OwnStep(st1, st', t);
  }

  // ---- The branches ----

  function YieldToChild(st: State, t: TaskId, s: ScopeId, u: TaskId): State
    requires t in st.tasks
  {
    Put(st, t, st.tasks[t].(frame := InDeadlineYield(s, u), inRq := true))
      .(rq := st.rq + [t], cur := None)
  }

  // The classification in terms of the reopened state b.
  function Branch(b: State, t: TaskId, s: ScopeId, u: TaskId): Out
    requires t in b.tasks && u in b.tasks && s in b.scopes
  {
    var y := b.tasks[u];
    if y.done then DeadlineReturn(b, t, true)
    else if Droppable(b, u) then
      var st2 :- ForceDrop(Marked(b, s, TimedOut), u, t);
      DeadlineReturn(st2, t, false)
    else if y.inRq then Next(YieldToChild(b, t, s, u))
    else Abort
  }

  lemma ClassifyIs(st: State, t: TaskId, s: ScopeId, u: TaskId)
    requires t in st.tasks && u in st.tasks && u != t && s in st.scopes
    requires !st.tasks[t].onIo && t !in st.rq
    ensures Classify(Put(st, t, st.tasks[t].(frame := Running, deadlineChild := None)), t, s, u)
            == Branch(Reopened(st, t, u), t, s, u)
  {
    var x := st.tasks[t].(frame := Running, deadlineChild := None);
    var y := st.tasks[u].(awaiter := None);
    var b := Reopened(st, t, u);
    assert st.tasks[t := x][u := y] == b.tasks;
    assert Put(Put(st, t, x), u, y) == b;
    PutPut(b, t, x.(frame := InDeadlineYield(s, u)),
           x.(frame := InDeadlineYield(s, u), inRq := true));
    hide ForceDrop;
  }

  lemma YieldToChildSafe(b: State, t: TaskId, s: ScopeId, u: TaskId)
    requires Ready(b, t) && u in b.tasks && b.tasks[u].awaiter == None && u != t
    requires DeadlineLink(b, t, s, u) && b.tasks[t].timerDead && b.tasks[t].expired
    ensures Inv(YieldToChild(b, t, s, u))
  {
    hide Core, ChansOk, ClosedOk;
    RunningFacts(b, t);
    hide NoRefs;
    var st' := YieldToChild(b, t, s, u);
    assert FrameOk(st', t);
    hide FrameOk;
    RunningStep(b, st', t);
  }

  lemma BranchSafe(b: State, t: TaskId, s: ScopeId, u: TaskId)
    requires Ready(b, t) && u in b.tasks && b.tasks[u].awaiter == None && u != t
    requires DeadlineLink(b, t, s, u) && b.tasks[t].timerDead
    requires b.tasks[u].done || b.tasks[t].expired
    requires Droppable(b, u) ==> NoOpenScope(b, u)
    ensures Safe(Branch(b, t, s, u))
  {
    hide Core, ChansOk, ClosedOk, ForceDrop;
    RunningFacts(b, t);
    hide FrameOk, NoRefs;
    if b.tasks[u].done {
      ReturnSafe(b, t, b.tasks[t].(ret := Flag(true)));
    } else if Droppable(b, u) {
      MarkedInv(b, s, TimedOut);
      var b' := Marked(b, s, TimedOut);
      ForceDropSafe(b', u, s, t);
      if ForceDrop(b', u, t).Next? {
        var st2 := ForceDrop(b', u, t).value;
        assert st2.tasks[t] == b.tasks[t] by {
          hide ChansLess;
        }
        hide DropEffect;
        ReturnSafe(st2, t, st2.tasks[t].(ret := Flag(false)));
      }
    } else if b.tasks[u].inRq {
      YieldToChildSafe(b, t, s, u);
    }
  }

  lemma ResumeDeadlineSafe(st: State, t: TaskId, s: ScopeId, u: TaskId)
    requires DeadlineResumes(st, t, s, u)
    requires u in st.tasks && Droppable(st, u) ==> NoOpenScope(st, u)
    ensures Safe(Resume(st, t))
    ensures u in st.tasks && s in st.scopes && Ready(Reopened(st, t, u), t)
    ensures Resume(st, t) == Branch(Reopened(st, t, u), t, s, u)
  {
    hide Core, ChansOk, ClosedOk, Classify, Branch;
    OwnFacts(st, t);
    ReopenedReady(st, t, s, u);
    ClassifyIs(st, t, s, u);
    var b := Reopened(st, t, u);
    assert DeadlineLink(b, t, s, u);
    BranchSafe(b, t, s, u);
  }
}
