// The poller that the scheduler's steps assume is the one of module WinPoller: if its tables hold
// the registrations of a state, a wait reports a batch that the pump may take, and the tables hold
// the registrations of the state after it.
module SchedPoller {
  import opened Common
  import opened SchedState
  import opened SchedSteps
  import opened SchedMachine
  import opened SchedInvariant
  import opened SchedPollOps
  import opened SchedReturns
  import W = WinPoller

  // The two tables hold exactly the registrations of st, with the tasks as tokens.
  ghost predicate Backs(timers: seq<W.Timer>, fds: seq<W.Entry>, st: State) {
    BacksTimers(timers, st.timers) && BacksFds(fds, st.fds)
  }

  ghost predicate BacksTimers(timers: seq<W.Timer>, at: map<TimerId, TaskId>) {
    && (forall x :: x in timers ==> x.id in at && at[x.id] == x.token)
    && (forall id :: id in at ==> exists x :: x in timers && x.id == id)
  }

  ghost predicate BacksFds(fds: seq<W.Entry>, at: map<int, TaskId>) {
    && (forall e :: e in fds ==> e.fd in at && at[e.fd] == e.token)
    && (forall fd :: fd in at ==> exists e :: e in fds && e.fd == fd)
  }

  // What the pump is told: the descriptors that are ready, then the timers that are due.
  function Events(hits: seq<W.Entry>, due: seq<W.Timer>): (b: seq<Event>)
    ensures |b| == |hits| + |due|
  {
    seq(|hits|, i requires 0 <= i < |hits| => FdReady(hits[i].fd))
    + seq(|due|, i requires 0 <= i < |due| => TimerFired(due[i].id))
  }

  // What is reported has no id twice and none that stays.
  lemma DueOnce(was: seq<W.Timer>, due: seq<W.Timer>, left: seq<W.Timer>)
    requires W.DistinctIds(was) && multiset(left) + multiset(due) == multiset(was)
    ensures forall i, j :: 0 <= i < j < |due| ==> due[i].id != due[j].id
    ensures forall x :: x in was <==> x in due || x in left
    ensures forall x, y :: x in due && y in left ==> x.id != y.id
  {
    var back := left + due;
    W.SameIds(was, back);
    Members(was, due, left);
    assert forall i :: 0 <= i < |due| ==> back[|left| + i] == due[i];
    assert forall i :: 0 <= i < |left| ==> back[i] == left[i];
  }

  lemma Members(was: seq<W.Timer>, due: seq<W.Timer>, left: seq<W.Timer>)
    requires multiset(left) + multiset(due) == multiset(was)
    ensures forall x :: x in was <==> x in due || x in left
  {
    forall x ensures x in was <==> x in due || x in left {
      assert x in was <==> x in multiset(was);
      assert x in due <==> x in multiset(due);
      assert x in left <==> x in multiset(left);
    }
  }

  // A socket has one entry, and keeps it and its token when it is probed.
  lemma ProbedOnce(was: seq<W.Entry>, ready: set<int>, x: W.Entry, y: W.Entry)
    requires W.DistinctFds(was)
    requires x in W.Probed(was, ready) && y in W.Probed(was, ready) && x.fd == y.fd
    ensures x == y
  {
    var p := W.Probed(was, ready);
    var i :| 0 <= i < |p| && p[i] == x;
    var j :| 0 <= j < |p| && p[j] == y;
    assert was[i].fd == was[j].fd;
  }

  lemma ProbedBacks(was: seq<W.Entry>, ready: set<int>, at: map<int, TaskId>)
    requires BacksFds(was, at)
    ensures BacksFds(W.Probed(was, ready), at)
  {
    var p := W.Probed(was, ready);
    forall e | e in p ensures e.fd in at && at[e.fd] == e.token {
      var i :| 0 <= i < |p| && p[i] == e;
      assert was[i] in was;
    }
    forall fd | fd in at ensures exists e :: e in p && e.fd == fd {
      var e :| e in was && e.fd == fd;
      var i :| 0 <= i < |was| && was[i] == e;
      assert p[i] in p && p[i].fd == fd;
    }
  }

  // ---- A wait ----

  // The batch names registrations of st, none twice, and each report carries the task that the
  // event it stands for belongs to.
  lemma ReportsEvents(st: State, timers: seq<W.Timer>, timers': seq<W.Timer>, fds: seq<W.Entry>,
                      fds': seq<W.Entry>, ready: set<int>, now: int, hits: seq<W.Entry>,
                      due: seq<W.Timer>)
    requires W.DistinctIds(timers) && W.DistinctFds(fds) && Backs(timers, fds, st)
    requires W.FdsTaken(fds, ready, hits, fds') && W.TimersTaken(timers, now, due, timers')
    ensures var b, out := Events(hits, due), W.Reports(hits, due);
      && BatchOk(st, b) && |out| == |b|
      && forall i :: 0 <= i < |b| ==>
           out[i] == W.Report(Owner(st, b[i]), b[i].TimerFired?)
  {
    DueOnce(timers, due, timers');
    ProbedBacks(fds, ready, st.fds);
    var b := Events(hits, due);
    forall i | 0 <= i < |b| ensures Registered(st, b[i]) {
      if i < |hits| {
        assert hits[i] in hits;
      } else {
        assert due[i - |hits|] in due;
      }
    }
    forall i, j | 0 <= i < j < |b| ensures b[i] != b[j] {
      if j < |hits| && hits[i].fd == hits[j].fd {
        ProbedOnce(fds, ready, hits[i], hits[j]);
      }
    }
  }

  // The tables after the wait hold what is registered once the batch is taken out.
  lemma TablesAfter(st: State, timers: seq<W.Timer>, timers': seq<W.Timer>, fds: seq<W.Entry>,
                    fds': seq<W.Entry>, ready: set<int>, now: int, hits: seq<W.Entry>,
                    due: seq<W.Timer>)
    requires W.DistinctIds(timers) && W.DistinctFds(fds) && Backs(timers, fds, st)
    requires W.FdsTaken(fds, ready, hits, fds') && W.TimersTaken(timers, now, due, timers')
    ensures BacksTimers(timers', st.timers - TimersIn(Events(hits, due)))
    ensures BacksFds(fds', st.fds - FdsIn(Events(hits, due)))
  {
    DueOnce(timers, due, timers');
    ProbedBacks(fds, ready, st.fds);
    NamedIn(hits, due);
    forall e, h | e in fds' && h in hits ensures e.fd != h.fd {
      if e.fd == h.fd {
        ProbedOnce(fds, ready, e, h);
      }
    }
  }

  lemma NamedIn(hits: seq<W.Entry>, due: seq<W.Timer>)
    ensures forall id :: id in TimersIn(Events(hits, due)) <==> exists x :: x in due && x.id == id
    ensures forall fd :: fd in FdsIn(Events(hits, due)) <==> exists e :: e in hits && e.fd == fd
  {
    var b := Events(hits, due);
    forall x | x in due ensures TimerFired(x.id) in b {
      var i :| 0 <= i < |due| && due[i] == x;
      assert b[|hits| + i] == TimerFired(x.id);
    }
    forall e | e in hits ensures FdReady(e.fd) in b {
      var i :| 0 <= i < |hits| && hits[i] == e;
      assert b[i] == FdReady(e.fd);
    }
  }

  // One wait and the pump's handling of what it reports: the batch is one the step relation
  // allows, every report carries the right task, and the tables back the state after it.
  lemma RoundHarvested(st: State, timers: seq<W.Timer>, timers': seq<W.Timer>, fds: seq<W.Entry>,
                       fds': seq<W.Entry>, ready: set<int>, now: int, hits: seq<W.Entry>,
                       due: seq<W.Timer>)
    requires Inv(st) && st.cur == None && Backs(timers, fds, st)
    requires W.DistinctIds(timers) && W.DistinctFds(fds)
    requires W.FdsTaken(fds, ready, hits, fds') && W.TimersTaken(timers, now, due, timers')
    ensures var b, out := Events(hits, due), W.Reports(hits, due);
      && BatchOk(st, b) && |out| == |b|
      && (forall i :: 0 <= i < |b| ==> out[i] == W.Report(Owner(st, b[i]), b[i].TimerFired?))
      && Harvest(st, b).Next? && Inv(Harvest(st, b).value)
      && Backs(timers', fds', Harvest(st, b).value)
  {
    hide Inv, Harvest, BatchOk;
    ReportsEvents(st, timers, timers', fds, fds', ready, now, hits, due);
    TablesAfter(st, timers, timers', fds, fds', ready, now, hits, due);
    BatchWakes(st, Events(hits, due));
    HarvestSafe(st, Events(hits, due));
  }

  // ---- Arming and removing ----

  // An id that no timer has is one that the step relation lets the poller give out.
  lemma ArmBacks(st: State, timers: seq<W.Timer>, timers': seq<W.Timer>, x: W.Timer)
    requires BacksTimers(timers, st.timers) && forall y :: y in timers ==> y.id != x.id
    requires multiset(timers') == multiset(timers) + multiset{x}
    ensures ArmOk(st, Some(x.id)) && BacksTimers(timers', st.timers[x.id := x.token])
  {
    Members(timers', timers, [x]);
  }

  lemma WatchBacks(st: State, fds: seq<W.Entry>, fds': seq<W.Entry>, x: W.Entry)
    requires BacksFds(fds, st.fds)
    requires forall e :: e in fds' <==> e == x || (e in fds && e.fd != x.fd)
    ensures BacksFds(fds', st.fds[x.fd := x.token])
  {
    assert x in fds';
  }

  lemma RemovalBacks(st: State, timers: seq<W.Timer>, timers': seq<W.Timer>, fds: seq<W.Entry>,
                     fds': seq<W.Entry>, id: TimerId, fd: int)
    requires Backs(timers, fds, st)
    requires forall x :: x in timers' <==> x in timers && x.id != id
    requires forall e :: e in fds' <==> e in fds && e.fd != fd
    ensures BacksTimers(timers', st.timers - {id}) && BacksFds(fds', st.fds - {fd})
  {
  }
}
