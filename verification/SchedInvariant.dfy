// What holds of the scheduler's state whenever a step begins or ends.
//
// The set limbo names tasks that a step has taken off their wait structure and will wake or
// drop before it ends; between steps it is empty.
module SchedInvariant {
  import opened Common
  import opened SchedState
  import opened SchedSteps
  import opened SchedMachine

  // ---- Where a task is ----

  predicate Woken(st: State, t: TaskId)
    requires t in st.tasks
  {
    st.tasks[t].inRq || st.cur == Some(t)
  }

  // Suspended with nothing but an awaiter or waiter link to wake it.
  predicate Waiting(st: State, t: TaskId)
    requires t in st.tasks
  {
    var x := st.tasks[t];
    !x.inRq && !x.onIo && x.park.NotParked? && st.cur != Some(t)
  }

  predicate IoPark(p: Park) {
    p.OnFd? || p.OnTimer? || p.OnFdTimer?
  }

  predicate TimerLive(st: State, t: TaskId)
    requires t in st.tasks
  {
    var x := st.tasks[t];
    !x.timerDead && x.timer in st.timers && st.timers[x.timer] == t
  }

  ghost predicate QueuesOk(st: State) {
    && NoDup(st.rq)
    && NoDup(st.io)
    && (forall t {:trigger t in st.rq} {:trigger st.tasks[t].inRq} ::
          t in st.rq <==> t in st.tasks && st.tasks[t].inRq)
    && (forall t {:trigger t in st.io} {:trigger st.tasks[t].onIo} ::
          t in st.io <==> t in st.tasks && st.tasks[t].onIo)
  }

  predicate PlaceOk(st: State, t: TaskId, limbo: set<TaskId>)
    requires t in st.tasks
  {
    var x := st.tasks[t];
    if !Alive(st, t) then
      && x.awaitable
      && !(x.done && x.dropped)
      && !x.inRq && !x.onIo && st.cur != Some(t)
      && x.awaiter == None
    else if t in limbo then
      !x.inRq && st.cur != Some(t) && (x.onIo ==> IoPark(x.park))
    else
      && (Woken(st, t) ==> !x.onIo && x.park.NotParked?)
      && !(x.inRq && st.cur == Some(t))
      && (x.onIo <==> IoPark(x.park))
  }

  ghost predicate PlacesOk(st: State, limbo: set<TaskId>) {
    && (forall t {:trigger PlaceOk(st, t, limbo)} :: t in st.tasks ==> PlaceOk(st, t, limbo))
    && (st.cur.Some? ==> st.cur.value in st.tasks)
  }

  // ---- What a suspended task is waiting for ----

  predicate DeadlineLink(st: State, t: TaskId, s: ScopeId, c: TaskId) {
    && s in st.scopes && st.scopes[s].owner == t
    && c in st.tasks && st.tasks[c].scope == Some(s) && st.tasks[c].awaitable
    && !st.tasks[c].dropped
  }

  // Parked on an fd, on an fd and a timer, or on a timer.
  predicate PollFrameOk(st: State, t: TaskId)
    requires t in st.tasks
  {
    var x := st.tasks[t];
    match x.frame
    case InFd(fd) => Woken(st, t) || (x.park == OnFd(fd) && fd in st.fds && st.fds[fd] == t)
    case InFdTimed(fd, tid) =>
      && x.timer == tid
      && (fd in st.fds ==> st.fds[fd] == t)
      && (x.timerDead || TimerLive(st, t))
      && (|| (Woken(st, t) && (x.wokeByTimer ==> x.timerDead))
          || (x.park == OnFdTimer(fd) && fd in st.fds && st.fds[fd] == t && !x.timerDead))
    case InSleep => if Woken(st, t) then x.timerDead else x.park == OnTimer && TimerLive(st, t)
    case _ => true
  }

  // Inside __await_deadline, before its first wake and between its yields.
  predicate DeadlineFrameOk(st: State, t: TaskId)
    requires t in st.tasks
  {
    var x := st.tasks[t];
    match x.frame
    case InDeadline(s, c) =>
      && DeadlineLink(st, t, s, c)
      && (if st.cur == Some(t) then
            && x.timerDead && (st.tasks[c].awaiter == None || st.tasks[c].awaiter == Some(t))
            && (st.tasks[c].done || x.expired)
          else if x.inRq then
            && x.timerDead && x.deadlineChild == Some(c)
            && (if st.tasks[c].done then st.tasks[c].awaiter == None
                else st.tasks[c].awaiter == Some(t) && x.expired)
          else
            && x.park == OnTimer && TimerLive(st, t) && x.deadlineChild == Some(c)
            && st.tasks[c].awaiter == Some(t))
    case InDeadlineYield(s, c) =>
      && DeadlineLink(st, t, s, c) && Woken(st, t) && x.timerDead && x.expired
      && st.tasks[c].awaiter == None
    case _ => true
  }

  // Waiting for a task or for a scope to drain.
  predicate LinkFrameOk(st: State, t: TaskId)
    requires t in st.tasks
  {
    var x := st.tasks[t];
    match x.frame
    case InAwait(u) =>
      && u in st.tasks && st.tasks[u].awaitable && AwaitedInside(st, t, u)
      && (if Woken(st, t) then st.tasks[u].done
          else Waiting(st, t) && st.tasks[u].awaiter == Some(t))
    case InJoin(s) =>
      && s in st.scopes && x.nest != [] && x.nest[|x.nest| - 1] == s
      && (if Woken(st, t) then st.scopes[s].live == 0 && st.scopes[s].waiter == None
          else Waiting(st, t) && st.scopes[s].waiter == Some(t) && st.scopes[s].live > 0)
    case _ => true
  }

  // On a channel, or just taken off one with an outcome.
  predicate ChanFrameOk(st: State, t: TaskId)
    requires t in st.tasks
  {
    var x := st.tasks[t];
    match x.frame
    case InSend(ch) =>
      if Woken(st, t) then x.closedWake || x.pending == None
      else x.park == OnChan(ch, true) && x.pending.Some? && !x.closedWake
    case InRecv(ch) =>
      if Woken(st, t) then x.closedWake <==> x.pending == None
      else x.park == OnChan(ch, false) && x.pending == None && !x.closedWake
    case InSelect =>
      if Woken(st, t) then x.regs == [] && (x.closedWake <==> x.pending == None)
      else x.park == OnSelect && x.regs != [] && x.pending == None && !x.closedWake
    case _ => x.pending == None && !x.closedWake
  }

  predicate FrameOk(st: State, t: TaskId)
    requires t in st.tasks
  {
    && (st.tasks[t].frame.Running? ==> Woken(st, t))
    && (st.tasks[t].deadlineChild.Some? ==> st.tasks[t].frame.InDeadline?)
    && PollFrameOk(st, t)
    && DeadlineFrameOk(st, t)
    && LinkFrameOk(st, t)
    && ChanFrameOk(st, t)
  }

  ghost predicate FramesOk(st: State, limbo: set<TaskId>) {
    forall t {:trigger FrameOk(st, t)} :: t in st.tasks && Alive(st, t) && t !in limbo ==> FrameOk(st, t)
  }

  // ---- Links between records, and the poller's registrations ----

  ghost predicate LinksOk(st: State) {
    && (forall u {:trigger st.tasks[u].awaiter} :: u in st.tasks && st.tasks[u].awaiter.Some? ==>
          var a := st.tasks[u].awaiter.value;
          && Alive(st, a)
          && (|| (st.tasks[a].frame == InAwait(u) && Waiting(st, a))
              || (st.tasks[a].frame.InDeadline? && st.tasks[a].frame.child == u)))
    && (forall s {:trigger st.scopes[s].waiter} :: s in st.scopes && st.scopes[s].waiter.Some? ==>
          var w := st.scopes[s].waiter.value;
          Alive(st, w) && st.tasks[w].frame == InJoin(s) && Waiting(st, w))
  }

  ghost predicate PollerOk(st: State) {
    && (forall tid :: tid in st.timers ==>
          var t := st.timers[tid];
          && Alive(st, t) && st.tasks[t].timer == tid && !st.tasks[t].timerDead
          && (st.tasks[t].frame.InFdTimed? ||
              ((st.tasks[t].frame.InSleep? || st.tasks[t].frame.InDeadline?) && st.tasks[t].onIo)))
    && (forall fd :: fd in st.fds ==>
          var t := st.fds[fd];
          && Alive(st, t)
          && (|| (st.tasks[t].frame == InFd(fd) && st.tasks[t].onIo)
              || (st.tasks[t].frame.InFdTimed? && st.tasks[t].frame.fd == fd)))
  }

  // ---- Scopes ----

  ghost function LiveSet(tasks: map<TaskId, Task>, s: ScopeId): set<TaskId> {
    set t | t in tasks && tasks[t].scope == Some(s) && !tasks[t].done && !tasks[t].dropped
  }

  predicate ParentOk(x: Task, i: nat, parent: Option<ScopeId>)
    requires i < |x.nest|
  {
    parent == if i == 0 then x.scope else Some(x.nest[i - 1])
  }

  ghost predicate NestOk(tasks: map<TaskId, Task>, scopes: map<ScopeId, Scope>, t: TaskId)
    requires t in tasks
  {
    var x := tasks[t];
    && (x.scope.Some? ==> x.scope.value in scopes)
    && (x.done || x.dropped ==> x.nest == [])
    && NoDup(x.nest)
    && forall i :: 0 <= i < |x.nest| ==>
         && x.nest[i] in scopes
         && scopes[x.nest[i]].owner == t
         && ParentOk(x, i, scopes[x.nest[i]].parent)
  }

  ghost predicate ScopeOk(tasks: map<TaskId, Task>, scopes: map<ScopeId, Scope>, s: ScopeId)
    requires s in scopes
  {
    var c := scopes[s];
    && c.live == |LiveSet(tasks, s)|
    && c.owner in tasks && s in tasks[c.owner].nest
    && NoDup(c.forks)
    && (forall f :: f in c.forks <==> f in tasks && tasks[f].scope == Some(s) && tasks[f].awaitable)
    && (match c.parent
        case None => c.anc == {s}
        case Some(p) => p in scopes && scopes[p].level < c.level && c.anc == {s} + scopes[p].anc)
  }

  ghost predicate ScopesOk(tasks: map<TaskId, Task>, scopes: map<ScopeId, Scope>) {
    && (forall t {:trigger NestOk(tasks, scopes, t)} :: t in tasks ==> NestOk(tasks, scopes, t))
    && (forall s {:trigger ScopeOk(tasks, scopes, s)} :: s in scopes ==> ScopeOk(tasks, scopes, s))
  }

  ghost predicate IdsOk(st: State) {
    && (forall t :: t in st.tasks ==> t < st.next)
    && (forall s :: s in st.scopes ==> s < st.next)
    && (forall ch :: ch in st.chans ==> ch < st.next)
  }

  // ---- Channels ----

  ghost predicate ChanOk(st: State, ch: ChanId, limbo: set<TaskId>)
    requires ch in st.chans
  {
    var c := st.chans[ch];
    && c.scope in st.scopes
    && NoDup(c.sendq) && NoDup(c.recvq) && NoDup(c.selq)
    && (forall t {:trigger t in c.sendq} :: t in c.sendq <==>
          Alive(st, t) && t !in limbo && st.tasks[t].park == OnChan(ch, true))
    && (forall t {:trigger t in c.recvq} :: t in c.recvq <==>
          Alive(st, t) && t !in limbo && st.tasks[t].park == OnChan(ch, false))
    && (forall w {:trigger w in c.selq} :: w in c.selq <==>
          && Alive(st, w.task) && w.task !in limbo && st.tasks[w.task].park == OnSelect
          && w.index < |st.tasks[w.task].regs| && st.tasks[w.task].regs[w.index] == ch)
    && |c.buf| <= c.cap
    && (c.sendq != [] ==> |c.buf| == c.cap && c.recvq == [] && c.selq == [])
    && (c.recvq != [] || c.selq != [] ==> c.buf == [])
  }

  predicate ParkTargetOk(st: State, t: TaskId)
    requires t in st.tasks
  {
    var x := st.tasks[t];
    && (x.park.OnChan? ==> x.park.chan in st.chans)
    && (x.park.OnSelect? ==> forall i :: 0 <= i < |x.regs| ==> x.regs[i] in st.chans)
  }

  ghost predicate ChansOk(st: State, limbo: set<TaskId>) {
    && (forall ch {:trigger ChanOk(st, ch, limbo)} :: ch in st.chans ==> ChanOk(st, ch, limbo))
    && (forall t {:trigger ParkTargetOk(st, t)} ::
          t in st.tasks && Alive(st, t) && t !in limbo ==> ParkTargetOk(st, t))
  }

  // ---- All of it ----

  ghost predicate Core(st: State, limbo: set<TaskId>) {
    && QueuesOk(st)
    && PlacesOk(st, limbo)
    && FramesOk(st, limbo)
    && LinksOk(st)
    && PollerOk(st)
    && ScopesOk(st.tasks, st.scopes)
    && IdsOk(st)
  }

  ghost predicate ClosedOk(st: State) {
    forall ch :: ch in st.chans && st.chans[ch].closed ==>
      st.chans[ch].sendq == [] && st.chans[ch].recvq == [] && st.chans[ch].selq == []
  }

  ghost predicate Inv(st: State) {
    Core(st, {}) && ChansOk(st, {}) && ClosedOk(st)
  }

  // ---- Scope facts depend on little of the state ----

  predicate SameLife(x: Task, y: Task) {
    && x.scope == y.scope && x.awaitable == y.awaitable && x.done == y.done
    && x.dropped == y.dropped && x.nest == y.nest
  }

  predicate SameShape(a: Scope, b: Scope) {
    && a.live == b.live && a.forks == b.forks && a.owner == b.owner && a.parent == b.parent
    && a.level == b.level && a.anc == b.anc
  }

  lemma ScopeFrame(tasks: map<TaskId, Task>, scopes: map<ScopeId, Scope>,
                   tasks': map<TaskId, Task>, scopes': map<ScopeId, Scope>, s: ScopeId)
    requires s in scopes && ScopeOk(tasks, scopes, s)
    requires tasks.Keys == tasks'.Keys && forall t :: t in tasks ==> SameLife(tasks[t], tasks'[t])
    requires scopes.Keys == scopes'.Keys
    requires forall s :: s in scopes ==> SameShape(scopes[s], scopes'[s])
    ensures ScopeOk(tasks', scopes', s)
  {
    assert LiveSet(tasks', s) == LiveSet(tasks, s);
  }

  lemma ScopesFrame(tasks: map<TaskId, Task>, scopes: map<ScopeId, Scope>,
                    tasks': map<TaskId, Task>, scopes': map<ScopeId, Scope>)
    requires ScopesOk(tasks, scopes)
    requires tasks.Keys == tasks'.Keys && forall t :: t in tasks ==> SameLife(tasks[t], tasks'[t])
    requires scopes.Keys == scopes'.Keys
    requires forall s :: s in scopes ==> SameShape(scopes[s], scopes'[s])
    ensures ScopesOk(tasks', scopes')
  {
    hide ScopeOk;
    forall t | t in tasks' ensures NestOk(tasks', scopes', t) {
      assert NestOk(tasks, scopes, t);
    }
    forall s | s in scopes' ensures ScopeOk(tasks', scopes', s) {
      ScopeFrame(tasks, scopes, tasks', scopes', s);
    }
  }

  lemma ContextFrame(st: State, st': State, t: TaskId)
    requires t in st.tasks && t in st'.tasks && SameLife(st.tasks[t], st'.tasks[t])
    requires st.scopes.Keys == st'.scopes.Keys
    requires forall s :: s in st.scopes ==> SameShape(st.scopes[s], st'.scopes[s])
    ensures Context(st, t) == Context(st', t)
  {
  }
}
