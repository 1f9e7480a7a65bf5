// A task finishes: it wakes its awaiter and, if it was the last of its scope, the joiner,
// each exactly once.
module SchedFinish {
  import opened Common
  import opened SchedState
  import opened SchedSteps
  import opened SchedMachine
  import opened SchedInvariant
  import opened SchedCore
  import opened SchedLife
  import opened SchedChans
  import opened SchedPollOps
  import opened SchedDrop
  import opened SchedScopeOps

  // The finished task is gone from its scope; nobody has been woken yet.
  function Ended(st: State, t: TaskId, result: int): State
    requires t in st.tasks && st.tasks[t].scope.Some? && st.tasks[t].scope.value in st.scopes
  {
    var x := st.tasks[t];
    var s := x.scope.value;
    var c := st.scopes[s].(live := st.scopes[s].live - 1);
    var tasks := if x.awaitable
                 then st.tasks[t := x.(done := true, result := result, awaiter := None)]
                 else st.tasks - {t};
    st.(tasks := tasks, cur := None,
        scopes := st.scopes[s := if c.live == 0 then c.(waiter := None) else c])
  }

  // Whom the end of t must wake: an awaiter that is not already runnable, and the joiner.
  predicate AwaiterSleeps(st: State, t: TaskId)
    requires t in st.tasks
  {
    var a := st.tasks[t].awaiter;
    a.Some? && a.value in st.tasks && !st.tasks[a.value].inRq
  }

  predicate JoinerSleeps(st: State, t: TaskId, s: ScopeId)
    requires s in st.scopes
  {
    st.scopes[s].live == 1 && st.scopes[s].waiter.Some?
  }

  function Sleepers(st: State, t: TaskId, s: ScopeId): set<TaskId>
    requires t in st.tasks && s in st.scopes
  {
    (if AwaiterSleeps(st, t) then {st.tasks[t].awaiter.value} else {}) +
    (if JoinerSleeps(st, t, s) then {st.scopes[s].waiter.value} else {})
  }

  // The task about to finish, in its scope s.
  ghost predicate Finishing(st: State, t: TaskId, s: ScopeId) {
    && Ready(st, t) && st.tasks[t].scope == Some(s) && st.tasks[t].nest == [] && s in st.scopes
  }

  lemma FinishingFacts(st: State, t: TaskId)
    requires Ready(st, t) && st.tasks[t].scope.Some?
    ensures st.tasks[t].scope.value in st.scopes && st.scopes[st.tasks[t].scope.value].live > 0
  {
    hide QueuesOk, FramesOk, LinksOk, PollerOk, IdsOk, ChansOk, ClosedOk, LiveSet;
    TaskFacts(st, t);
    RunningFacts(st, t);
    hide PlacesOk;
    var s := st.tasks[t].scope.value;
    assert ScopeOk(st.tasks, st.scopes, s);
    assert t in LiveSet(st.tasks, s) by {
      LiveMember(st, t, s);
    }
  }

  lemma LiveMember(st: State, t: TaskId, s: ScopeId)
    requires Alive(st, t) && st.tasks[t].scope == Some(s)
    ensures t in LiveSet(st.tasks, s)
  {
  }

  // The link facts of the awaiter, if there is one.
  lemma AwaiterFacts(st: State, t: TaskId)
    requires Core(st, {}) && t in st.tasks && st.tasks[t].awaiter.Some?
    ensures var a := st.tasks[t].awaiter.value;
      && Alive(st, a) && Alive(st, t) && FrameOk(st, a) && PlaceOk(st, a, {})
      && (|| (st.tasks[a].frame == InAwait(t) && Waiting(st, a))
          || (st.tasks[a].frame.InDeadline? && st.tasks[a].frame.child == t))
      && st.tasks[t].awaitable
  {
    hide ScopesOk, IdsOk, PollerOk, QueuesOk;
    var a := st.tasks[t].awaiter.value;
    assert PlaceOk(st, t, {});
    assert FrameOk(st, a);
  }

  // Everything that refers to t or waits for its scope is woken, or is right as it is.
  lemma EndedFrame(st: State, t: TaskId, s: ScopeId, result: int, v: TaskId)
    requires Finishing(st, t, s) && st.scopes[s].live > 0
    requires v in st.tasks && Alive(st, v) && v != t && v !in Sleepers(st, t, s)
    requires RefersTo(st.tasks[v].frame, t) || st.tasks[v].frame == InJoin(s)
    ensures v in Ended(st, t, result).tasks && FrameOk(Ended(st, t, result), v)
  {
    hide Core, ChansOk, ClosedOk, Context, FrameOk;
    TaskFacts(st, v);
    RunningFacts(st, t);
    hide NoRefs, NestOk, PlaceOk;
    EndedContext(st, t, result, v);
    EndedFrame1(st, t, s, result, v);
  }

  lemma EndedFrame1(st: State, t: TaskId, s: ScopeId, result: int, v: TaskId)
    requires t in st.tasks && st.tasks[t].scope == Some(s) && s in st.scopes
    requires st.cur == Some(t) && Alive(st, t) && st.scopes[s].live > 0
    requires v in st.tasks && v != t && v !in Sleepers(st, t, s) && FrameOk(st, v)
    requires RefersTo(st.tasks[v].frame, t) || st.tasks[v].frame == InJoin(s)
    requires v in Ended(st, t, result).tasks && Ended(st, t, result).tasks[v] == st.tasks[v]
    requires Context(Ended(st, t, result), v) == Context(st, v)
    ensures FrameOk(Ended(st, t, result), v)
  {
    hide Context;
    var st' := Ended(st, t, result);
    assert LinkFrameOk(st', v) by {
      hide PollFrameOk, DeadlineFrameOk, ChanFrameOk;
    }
    assert DeadlineFrameOk(st', v) by {
      hide PollFrameOk, LinkFrameOk, ChanFrameOk;
    }
    hide LinkFrameOk, DeadlineFrameOk;
  }

  lemma EndedContext(st: State, t: TaskId, result: int, v: TaskId)
    requires t in st.tasks && st.tasks[t].scope.Some? && st.tasks[t].scope.value in st.scopes
    requires v in st.tasks && v != t
    ensures Context(Ended(st, t, result), v) == Context(st, v)
    ensures v in Ended(st, t, result).tasks && Ended(st, t, result).tasks[v] == st.tasks[v]
  {
  }

  lemma EndedCore(st: State, t: TaskId, s: ScopeId, result: int)
    requires Finishing(st, t, s)
    ensures Core(Ended(st, t, result), Sleepers(st, t, s))
  {
    hide Core, ChansOk, ClosedOk, FrameOk;
    FinishingFacts(st, t);
    RunningFacts(st, t);
    var st' := Ended(st, t, result);
    var limbo := Sleepers(st, t, s);
    forall v | v in st.tasks && Alive(st, v) && v != t && v !in limbo
               && (RefersTo(st.tasks[v].frame, t) || st.tasks[v].frame == InJoin(s))
      ensures v in st'.tasks && FrameOk(st', v)
    {
      EndedFrame(st, t, s, result, v);
    }
    SleepersOff(st, t, s);
    hide Sleepers, RefersTo;
    assert LeaveMove(st, st', t, s, {}, limbo);
    hide LeaveMove;
    CoreLeave(st, st', t, s, {}, limbo);
  }

  lemma SleepersOff(st: State, t: TaskId, s: ScopeId)
    requires Finishing(st, t, s)
    ensures forall v :: v in Sleepers(st, t, s) ==>
              v in st.tasks && !st.tasks[v].inRq && v != t && Alive(st, v)
  {
    hide Core, ChansOk, ClosedOk;
    RunningFacts(st, t);
    if st.tasks[t].awaiter.Some? {
      AwaiterFacts(st, t);
    }
    if st.scopes[s].waiter.Some? {
      ScopeLinkFacts(st, s);
    }
  }

  // ---- The wakes ----

  // Task a runnable, its deadline timer, if it was parked on one, torn down.
  function Awakened(st: State, a: TaskId): State
    requires a in st.tasks
  {
    var x := st.tasks[a];
    Put(st, a, x.(timerDead := x.timerDead || x.onIo, onIo := false, park := NotParked,
                  inRq := true))
      .(rq := st.rq + [a], io := Without(st.io, {a}),
        timers := if x.onIo then st.timers - {x.timer} else st.timers)
  }

  // A sleeping task that a step has unlinked, about to become runnable.
  ghost predicate Wakeable(st: State, a: TaskId, limbo: set<TaskId>) {
    && Core(st, limbo) && a in limbo && a in st.tasks && Alive(st, a)
    && !st.tasks[a].inRq && st.cur == None
    && (st.tasks[a].frame.InAwait? || st.tasks[a].frame.InDeadline? || st.tasks[a].frame.InJoin?)
    && (if st.tasks[a].frame.InDeadline? then
          st.tasks[a].onIo && TimerLive(st, a)
        else !st.tasks[a].onIo && st.tasks[a].park.NotParked?)
    && (forall u :: u in st.tasks ==> st.tasks[u].awaiter != Some(a))
    && (forall s :: s in st.scopes ==> st.scopes[s].waiter != Some(a))
    && FrameOk(Awakened(st, a), a)
  }

  lemma AwakenedCore(st: State, a: TaskId, limbo: set<TaskId>)
    requires Wakeable(st, a, limbo)
    ensures Core(Awakened(st, a), limbo - {a})
  {
    hide Core, FrameOk;
    WakeableFacts(st, a, limbo);
    var st' := Awakened(st, a);
    WithoutKeepsNoDup(st.io, {a});
    NoDupSnoc(st.rq, a);
    assert OneTask(st, st', a, limbo - {a});
    hide OneTask;
    CoreOneTask(st, st', a, limbo, limbo - {a});
  }

  lemma WakeableFacts(st: State, a: TaskId, limbo: set<TaskId>)
    requires Wakeable(st, a, limbo)
    ensures NoDup(st.rq) && NoDup(st.io) && a !in st.rq && (a in st.io <==> st.tasks[a].onIo)
    ensures forall tid :: tid in st.timers && st.timers[tid] == a ==>
              st.tasks[a].timer == tid && st.tasks[a].onIo
    ensures forall fd :: fd in st.fds ==> st.fds[fd] != a
  {
    hide ScopesOk, IdsOk, FramesOk, LinksOk, FrameOk;
  }

  lemma AwakenedIs(st: State, t: TaskId, a: TaskId)
    requires a in st.tasks && a !in st.rq && (a in st.io <==> st.tasks[a].onIo)
    requires if st.tasks[a].onIo then TimerLive(st, a)
             else st.tasks[a].park.NotParked? && st.tasks[a].deadlineChild != Some(t)
    ensures WakeAwaiter(st, t, a) == Next(Awakened(st, a))
  {
    var x := st.tasks[a];
    if x.onIo {
      var x1 := x.(timerDead := true);
      var x2 := x1.(onIo := false);
      var x3 := x2.(park := NotParked);
      PutPut(st, a, x1, x2);
      PutPut(st, a, x2, x3);
      PutPut(st, a, x3, x3.(inRq := true));
    } else {
      WithoutNothing(st.io, {a});
    }
  }

  // The state after the awaiter, if it slept, has been woken.
  function AwaiterWoken(st: State, t: TaskId, result: int): State
    requires t in st.tasks && st.tasks[t].scope.Some? && st.tasks[t].scope.value in st.scopes
  {
    var st1 := Ended(st, t, result);
    var a := st.tasks[t].awaiter;
    if AwaiterSleeps(st, t) && a.value in st1.tasks then Awakened(st1, a.value) else st1
  }

  lemma AwaiterWakeable(st: State, t: TaskId, s: ScopeId, result: int)
    requires Finishing(st, t, s) && AwaiterSleeps(st, t)
    ensures var a := st.tasks[t].awaiter.value;
      && a != t && a in Ended(st, t, result).tasks
      && Ended(st, t, result).tasks[a] == st.tasks[a]
      && Wakeable(Ended(st, t, result), a, Sleepers(st, t, s))
      && !st.tasks[a].frame.InJoin?
      && (st.tasks[a].deadlineChild.Some? ==> st.tasks[a].frame.InDeadline?)
  {
    hide Core, ChansOk, ClosedOk, Context;
    RunningFacts(st, t);
    hide NoRefs;
    AwaiterFacts(st, t);
    EndedCore(st, t, s, result);
    var a := st.tasks[t].awaiter.value;
    OnlyAwaits(st, t, a);
    var st1 := Ended(st, t, result);
    EndedContext(st, t, result, a);
    AwakenedContext(st1, a);
    AwaiterFrame1(st, st1, t, a);
    hide FrameOk, Awakened;
  }

  lemma AwaiterFrame1(st: State, st1: State, t: TaskId, a: TaskId)
    requires t in st.tasks && a in st.tasks && a in st1.tasks && st1.tasks[a] == st.tasks[a]
    requires st.tasks[t].awaiter == Some(a) && a != t && !st.tasks[a].inRq && st.cur == Some(t)
    requires Alive(st, t) && FrameOk(st, a) && PlaceOk(st, a, {}) && st1.timers == st.timers
    requires Alive(st, a)
    requires (st.tasks[a].frame == InAwait(t) && Waiting(st, a))
             || (st.tasks[a].frame.InDeadline? && st.tasks[a].frame.child == t)
    requires t in st1.tasks && st1.tasks[t] == st.tasks[t].(done := true, awaiter := None,
                                                         result := st1.tasks[t].result)
    requires st1.scopes.Keys == st.scopes.Keys && Context(Awakened(st1, a), a) == Context(st, a)
    requires forall s :: s in st.scopes ==> st1.scopes[s].owner == st.scopes[s].owner
    ensures FrameOk(Awakened(st1, a), a)
  {
    hide Context;
  }

  lemma AwakenedContext(st: State, a: TaskId)
    requires a in st.tasks
    ensures Context(Awakened(st, a), a) == Context(st, a)
  {
  }

  // The awaiter of t is nobody else's awaiter and no joiner.
  lemma OnlyAwaits(st: State, t: TaskId, a: TaskId)
    requires Core(st, {}) && t in st.tasks && st.tasks[t].awaiter == Some(a)
    ensures forall u :: u in st.tasks && u != t ==> st.tasks[u].awaiter != Some(a)
    ensures forall s :: s in st.scopes ==> st.scopes[s].waiter != Some(a)
  {
    hide ScopesOk, IdsOk, PollerOk, QueuesOk, PlacesOk, FramesOk;
  }

  // Waking the awaiter leaves the joiner and the scopes as they were.
  lemma JoinerRecord(st: State, t: TaskId, s: ScopeId, result: int, w: TaskId)
    requires t in st.tasks && st.tasks[t].scope == Some(s) && s in st.scopes
    requires w in st.tasks && w != t && st.tasks[t].awaiter != Some(w)
    ensures var st2 := AwaiterWoken(st, t, result);
      && w in st2.tasks && st2.tasks[w] == st.tasks[w]
      && st2.scopes == Ended(st, t, result).scopes
  {
  }

  lemma JoinerFrame(st: State, t: TaskId, s: ScopeId, result: int)
    requires Finishing(st, t, s) && JoinerSleeps(st, t, s)
    ensures var w := st.scopes[s].waiter.value;
      var st2 := AwaiterWoken(st, t, result);
      && w != t && Alive(st, w) && w in st2.tasks && st2.tasks[w] == st.tasks[w]
      && st.tasks[w].frame == InJoin(s) && Waiting(st, w)
      && FrameOk(Awakened(st2, w), w)
  {
    hide Core, ChansOk, ClosedOk, Context, TimerLive;
    ScopeLinkFacts(st, s);
    var w := st.scopes[s].waiter.value;
    TaskFacts(st, w);
    hide NestOk, PlaceOk;
    if st.tasks[t].awaiter.Some? {
      AwaiterNotJoiner(st, t, s);
    }
    JoinerRecord(st, t, s, result, w);
    hide AwaiterWoken;
    JoinerFrame1(st, AwaiterWoken(st, t, result), s, w);
  }

  lemma JoinerFrame1(st: State, st2: State, s: ScopeId, w: TaskId)
    requires w in st.tasks && w in st2.tasks && st2.tasks[w] == st.tasks[w]
    requires st.tasks[w].frame == InJoin(s) && FrameOk(st, w)
    requires s in st2.scopes && st2.scopes[s].live == 0 && st2.scopes[s].waiter == None
    ensures FrameOk(Awakened(st2, w), w)
  {
    hide Context;
  }

  lemma JoinerWakeable(st: State, t: TaskId, s: ScopeId, result: int)
    requires Finishing(st, t, s) && JoinerSleeps(st, t, s)
    ensures var w := st.scopes[s].waiter.value;
      var st2 := AwaiterWoken(st, t, result);
      && w != t && w in st2.tasks && st2.tasks[w] == st.tasks[w]
      && Wakeable(st2, w, {w}) && st.tasks[w].frame.InJoin? && w !in st2.rq && w !in st2.io
  {
    hide Core, ChansOk, ClosedOk, Context, FrameOk;
    var w := st.scopes[s].waiter.value;
    AwaiterWokenCore(st, t, s, result);
    OnlyJoins(st, s, w);
    JoinerFrame(st, t, s, result);
    QueueMember(AwaiterWoken(st, t, result), w, {w});
    WokenLinks(st, t, s, result, w);
    hide AwaiterWoken, Awakened;
  }

  // Waking the awaiter makes nobody wait for w.
  lemma WokenLinks(st: State, t: TaskId, s: ScopeId, result: int, w: TaskId)
    requires t in st.tasks && st.tasks[t].scope == Some(s) && s in st.scopes
    requires JoinerSleeps(st, t, s) && st.scopes[s].waiter == Some(w)
    requires forall u :: u in st.tasks ==> st.tasks[u].awaiter != Some(w)
    requires forall s' :: s' in st.scopes && s' != s ==> st.scopes[s'].waiter != Some(w)
    ensures var st2 := AwaiterWoken(st, t, result);
      && (forall u :: u in st2.tasks ==> st2.tasks[u].awaiter != Some(w))
      && (forall s' :: s' in st2.scopes ==> st2.scopes[s'].waiter != Some(w))
      && st2.cur == None
  {
  }

  lemma QueueMember(st: State, w: TaskId, limbo: set<TaskId>)
    requires Core(st, limbo) && w in st.tasks
    ensures (w in st.rq <==> st.tasks[w].inRq) && (w in st.io <==> st.tasks[w].onIo)
  {
    hide ScopesOk, IdsOk, PollerOk, LinksOk, PlacesOk, FramesOk;
  }

  lemma OnlyJoins(st: State, s: ScopeId, w: TaskId)
    requires Core(st, {}) && s in st.scopes && st.scopes[s].waiter == Some(w)
    ensures forall u :: u in st.tasks ==> st.tasks[u].awaiter != Some(w)
    ensures forall s' :: s' in st.scopes && s' != s ==> st.scopes[s'].waiter != Some(w)
  {
    hide ScopesOk, IdsOk, PollerOk, QueuesOk, PlacesOk, FramesOk;
  }

  lemma AwaiterWokenCore(st: State, t: TaskId, s: ScopeId, result: int)
    requires Finishing(st, t, s)
    ensures Core(AwaiterWoken(st, t, result),
                 if JoinerSleeps(st, t, s) then {st.scopes[s].waiter.value} else {})
  {
    hide Core, ChansOk, ClosedOk, Context, Wakeable, FrameOk;
    EndedCore(st, t, s, result);
    if AwaiterSleeps(st, t) {
      AwaiterWakeable(st, t, s, result);
      AwakenedCore(Ended(st, t, result), st.tasks[t].awaiter.value, Sleepers(st, t, s));
      AwaiterNotJoiner(st, t, s);
    }
    hide Ended, Awakened;
    var rest := if JoinerSleeps(st, t, s) then {st.scopes[s].waiter.value} else {};
    if AwaiterSleeps(st, t) {
      assert Sleepers(st, t, s) - {st.tasks[t].awaiter.value} == rest;
    } else {
      assert Sleepers(st, t, s) == rest;
    }
  }

  lemma AwaiterNotJoiner(st: State, t: TaskId, s: ScopeId)
    requires Finishing(st, t, s) && st.tasks[t].awaiter.Some?
    ensures st.scopes[s].waiter != st.tasks[t].awaiter
  {
    hide Core, ChansOk, ClosedOk, Context, FrameOk;
    AwaiterFacts(st, t);
    if st.scopes[s].waiter.Some? {
      ScopeLinkFacts(st, s);
    }
  }

  // The state a finish ends in.
  function Finished(st: State, t: TaskId, result: int): State
    requires t in st.tasks && st.tasks[t].scope.Some? && st.tasks[t].scope.value in st.scopes
  {
    var s := st.tasks[t].scope.value;
    var st2 := AwaiterWoken(st, t, result);
    if JoinerSleeps(st, t, s) && st.scopes[s].waiter.value in st2.tasks
    then Awakened(st2, st.scopes[s].waiter.value) else st2
  }

  lemma FinishedCore(st: State, t: TaskId, s: ScopeId, result: int)
    requires Finishing(st, t, s)
    ensures Core(Finished(st, t, result), {})
  {
    hide Core, ChansOk, ClosedOk, Context, Wakeable, FrameOk;
    hide AwaiterWoken, Awakened;
    AwaiterWokenCore(st, t, s, result);
    if JoinerSleeps(st, t, s) {
      JoinerWakeable(st, t, s, result);
      var w := st.scopes[s].waiter.value;
      AwakenedCore(AwaiterWoken(st, t, result), w, {w});
      assert {w} - {w} == {};
    }
  }

  // ---- The step is the state above ----

  // An awaiter that is already runnable is not pushed again.
  lemma AwakeAwaiter(st: State, t: TaskId)
    requires Core(st, {}) && t in st.tasks && st.tasks[t].awaiter.Some? && st.cur == Some(t)
    requires !AwaiterSleeps(st, t)
    ensures var a := st.tasks[t].awaiter.value;
      a != t && Alive(st, a) && !st.tasks[a].onIo && st.tasks[a].deadlineChild == Some(t)
  {
    hide Core, Context;
    AwaiterFacts(st, t);
  }

  // t marked done, nothing else yet.
  function Done(st: State, t: TaskId, result: int): State
    requires t in st.tasks
  {
    Put(st, t, st.tasks[t].(done := true, result := result, awaiter := None))
  }

  lemma AwaiterStep(st: State, t: TaskId, s: ScopeId, result: int)
    requires Finishing(st, t, s) && st.tasks[t].awaiter.Some?
    ensures st.tasks[t].awaitable
    ensures var o := WakeAwaiter(Done(st, t, result), t, st.tasks[t].awaiter.value);
      && o.Next? && o.value.scopes == st.scopes
      && o.value.(scopes := Ended(st, t, result).scopes, cur := None)
         == AwaiterWoken(st, t, result)
  {
    hide Core, ChansOk, ClosedOk, Context, Wakeable, FrameOk, WakeAwaiter;
    AwaiterFacts(st, t);
    if AwaiterSleeps(st, t) {
      AwaiterWakeable(st, t, s, result);
      SleeperFacts(st, t);
      AwakenedIs(Done(st, t, result), t, st.tasks[t].awaiter.value);
    } else {
      AwakeAwaiter(st, t);
      NoWake(Done(st, t, result), t, st.tasks[t].awaiter.value);
    }
  }

  lemma NoWake(st: State, t: TaskId, a: TaskId)
    requires a in st.tasks && !st.tasks[a].onIo && st.tasks[a].deadlineChild == Some(t)
    ensures WakeAwaiter(st, t, a) == Next(st)
  {
  }

  lemma SleeperFacts(st: State, t: TaskId)
    requires Core(st, {}) && t in st.tasks && AwaiterSleeps(st, t) && st.cur == Some(t)
    requires st.tasks[t].frame.Running?
    ensures var a := st.tasks[t].awaiter.value;
      && a !in st.rq && (a in st.io <==> st.tasks[a].onIo)
      && (if st.tasks[a].onIo then TimerLive(st, a)
          else st.tasks[a].park.NotParked? && st.tasks[a].deadlineChild != Some(t))
      && !ChanParked(st, a, {})
  {
    hide Core, Context;
    AwaiterFacts(st, t);
    QueueMember(st, st.tasks[t].awaiter.value, {});
  }

  lemma JoinerStep(st: State, w: TaskId)
    requires w in st.tasks && w !in st.rq && w !in st.io
    requires st.tasks[w].park.NotParked? && !st.tasks[w].onIo
    ensures RqPush(st, w) == Next(Awakened(st, w))
  {
    WithoutNothing(st.io, {w});
  }

  // Leaving the scope after the awaiter, in a state r that only differs from the ended one in
  // what Retire and the last switch still have to do.
  lemma LeaveIs(st: State, t: TaskId, s: ScopeId, result: int, r: State)
    requires t in st.tasks && st.tasks[t].scope == Some(s) && s in st.scopes
    requires r.scopes == st.scopes
    ensures LeaveScope(r, s, true) ==
              (if JoinerSleeps(st, t, s)
               then RqPush(r.(scopes := Ended(st, t, result).scopes), st.scopes[s].waiter.value)
               else Next(r.(scopes := Ended(st, t, result).scopes)))
  {
    hide RqPush;
  }

  lemma FinishAwaited(st: State, t: TaskId, s: ScopeId, result: int)
    requires Finishing(st, t, s) && st.tasks[t].awaiter.Some?
    requires JoinerSleeps(st, t, s) ==>
               var st2 := AwaiterWoken(st, t, result);
               var w := st.scopes[s].waiter.value;
               w != t && w in st2.tasks && RqPush(st2, w) == Next(Awakened(st2, w))
    ensures Finish(st, t, result) == Next(Finished(st, t, result))
  {
    hide Core, ChansOk, ClosedOk, WakeAwaiter;
    AwaiterStep(st, t, s, result);
    AwaiterFacts(st, t);
    hide FrameOk, PlaceOk;
    var r := WakeAwaiter(Done(st, t, result), t, st.tasks[t].awaiter.value).value;
    LeaveIs(st, t, s, result, r);
    hide LeaveScope;
    var st2 := AwaiterWoken(st, t, result);
    assert t in st2.tasks && st2.tasks[t].awaitable;
    assert r.tasks == st2.tasks;
  }

  lemma FinishUnawaited(st: State, t: TaskId, s: ScopeId, result: int)
    requires Finishing(st, t, s) && st.tasks[t].awaiter == None
    requires JoinerSleeps(st, t, s) ==>
               var st2 := AwaiterWoken(st, t, result);
               var w := st.scopes[s].waiter.value;
               w != t && w in st2.tasks && RqPush(st2, w) == Next(Awakened(st2, w))
    ensures Finish(st, t, result) == Next(Finished(st, t, result))
  {
    hide Core, ChansOk, ClosedOk;
    var r := Done(st, t, result);
    LeaveIs(st, t, s, result, r);
    hide LeaveScope;
    var st2 := AwaiterWoken(st, t, result);
    assert st2 == Ended(st, t, result);
    if !st.tasks[t].awaitable {
      assert r.tasks - {t} == st2.tasks;
      if JoinerSleeps(st, t, s) {
        var w := st.scopes[s].waiter.value;
        var x := r.tasks[w].(inRq := true);
        assert r.tasks[w := x] - {t} == st2.tasks[w := x];
      }
    }
  }

  lemma FinishIs(st: State, t: TaskId, s: ScopeId, result: int)
    requires Finishing(st, t, s)
    ensures Finish(st, t, result) == Next(Finished(st, t, result))
  {
    hide Core, ChansOk, ClosedOk, Context, Wakeable, FrameOk, Finish, Finished, AwaiterWoken;
    if JoinerSleeps(st, t, s) {
      JoinerWakeable(st, t, s, result);
      JoinerFrame(st, t, s, result);
      JoinerStep(AwaiterWoken(st, t, result), st.scopes[s].waiter.value);
    }
    hide RqPush, Awakened;
    if st.tasks[t].awaiter.Some? {
      FinishAwaited(st, t, s, result);
    } else {
      FinishUnawaited(st, t, s, result);
    }
  }

  // Only t and the tasks it wakes change, and neither is on a channel before or after.
  lemma FinishedParked(st: State, t: TaskId, s: ScopeId, result: int, u: TaskId)
    requires t in st.tasks && st.tasks[t].scope == Some(s) && s in st.scopes
    requires !ChanParked(st, t, {}) && Alive(st, t)
    requires AwaiterSleeps(st, t) ==> !ChanParked(st, st.tasks[t].awaiter.value, {})
    requires JoinerSleeps(st, t, s) ==> !ChanParked(st, st.scopes[s].waiter.value, {})
    ensures SameParked(st, Finished(st, t, result), u, {}, {})
  {
  }

  // Channels are untouched: whoever is woken was not on one.
  lemma FinishedChans(st: State, t: TaskId, s: ScopeId, result: int)
    requires Finishing(st, t, s)
    ensures ChansOk(Finished(st, t, result), {}) && ClosedOk(Finished(st, t, result))
  {
    hide Core, ChansOk, ClosedOk, Context, Wakeable, FrameOk, PlaceOk, NoRefs, SameParked;
    RunningFacts(st, t);
    var st' := Finished(st, t, result);
    if AwaiterSleeps(st, t) {
      SleeperFacts(st, t);
    }
    if JoinerSleeps(st, t, s) {
      JoinerFrame(st, t, s, result);
    }
    forall u ensures SameParked(st, st', u, {}, {}) {
      FinishedParked(st, t, s, result, u);
    }
    ChansScopes(st, st', {});
    ChansFrame(st, st', {}, {});
    ClosedFrame(st, st');
  }

  // A finish never aborts and never faults: at most one wake for the awaiter and one for the
  // joiner, each of a task that is not yet runnable.
  lemma FinishSafe(st: State, t: TaskId, result: int)
    requires Ready(st, t) && st.tasks[t].scope.Some? && st.tasks[t].nest == []
    ensures Finish(st, t, result).Next? && Inv(Finish(st, t, result).value)
  {
    hide Core, ChansOk, ClosedOk, Finish, Finished, FrameOk;
    FinishingFacts(st, t);
    var s := st.tasks[t].scope.value;
    FinishIs(st, t, s, result);
    FinishedCore(st, t, s, result);
    FinishedChans(st, t, s, result);
  }
}
