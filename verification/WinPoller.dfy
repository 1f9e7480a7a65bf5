// The Windows readiness poller: a deadline min-heap with removal anywhere, a compact socket
// table with swap-removal, and one batch taken from both.
module WinPoller {
  import opened Common

  const INT_MAX: int := 0x7fff_ffff
  const BATCH: nat := 64

  datatype Timer = Timer(deadline: int, id: nat, token: nat)

  // One slot of the WSAPOLLFD array with the token that goes with it.
  datatype Entry = Entry(fd: int, write: bool, ready: bool, token: nat)

  datatype Report = Report(token: nat, isTimer: bool)

  // One turn of the wait loop, as the system has it: the clock before, whether WSAPoll fails or
  // which sockets it finds ready, and the clock after.
  datatype Turn = Turn(before: int, failed: bool, ready: set<int>, after: int)

  datatype Waited = Woke(out: seq<Report>) | Aborted | StillWaiting

  // ---- Heap order ----

  function Parent(i: nat): (p: nat)
    requires i > 0
    ensures p < i
  {
    (i - 1) / 2
  }

  ghost predicate Ordered(t: seq<Timer>, j: nat)
    requires 0 < j < |t|
  {
    t[Parent(j)].deadline <= t[j].deadline
  }

  ghost predicate Heap(t: seq<Timer>) {
    forall j :: 0 < j < |t| ==> Ordered(t, j)
  }

  // Heap order except between i and its parent.
  ghost predicate HeapButUp(t: seq<Timer>, i: nat) {
    forall j :: 0 < j < |t| && j != i ==> Ordered(t, j)
  }

  // Heap order except between i and its parent and between k and its children.
  ghost predicate HeapButBoth(t: seq<Timer>, i: nat, k: nat) {
    forall j :: 0 < j < |t| && j != i && Parent(j) != k ==> Ordered(t, j)
  }

  // The children of i are no earlier than its parent.
  ghost predicate Bridge(t: seq<Timer>, i: nat) {
    i > 0 ==> forall j :: 0 < j < |t| && Parent(j) == i && i < |t| ==>
      t[Parent(i)].deadline <= t[j].deadline
  }

  function Swap(t: seq<Timer>, a: nat, b: nat): (r: seq<Timer>)
    requires a < |t| && b < |t|
    ensures |r| == |t| && multiset(r) == multiset(t)
  {
    t[a := t[b]][b := t[a]]
  }

  // The root of a heap is a nearest deadline.
  lemma {:induction false} RootFirst(t: seq<Timer>, j: nat)
    requires Heap(t) && j < |t|
    ensures t[0].deadline <= t[j].deadline
  {
    if j > 0 {
      assert Ordered(t, j);
      RootFirst(t, Parent(j));
    }
  }

  ghost predicate Nearest(x: Timer, t: seq<Timer>) {
    forall y :: y in t ==> x.deadline <= y.deadline
  }

  // A time left as the system is given it: nothing for one that is past, and no more than fits.
  function Clamped(d: int): (ms: int)
    ensures d <= 0 ==> ms == 0
    ensures 0 <= d <= 0x7fff_ffff ==> ms == d
    ensures d > 0x7fff_ffff ==> ms == 0x7fff_ffff
  {
    if d < 0 then 0 else if d > INT_MAX then INT_MAX else d
  }

  // The wait's timeout: the nearest deadline, never negative, so never read as "forever".
  function Timeout(t: seq<Timer>, now: int): (ms: int)
    requires Heap(t)
    ensures t == [] <==> ms == -1
    ensures t != [] ==> (ms == 0 <==> exists x :: x in t && x.deadline <= now)
    ensures t != [] ==> exists x :: x in t && Nearest(x, t) && ms == Clamped(x.deadline - now)
  {
    if t == [] then -1
    else
      assert t[0] in t;
      assert Nearest(t[0], t) by {
        forall j | 0 <= j < |t| ensures t[0].deadline <= t[j].deadline { RootFirst(t, j); }
      }
      Clamped(t[0].deadline - now)
  }

  ghost predicate DistinctIds(t: seq<Timer>) {
    forall i, j :: 0 <= i < j < |t| ==> t[i].id != t[j].id
  }

  ghost predicate DistinctFds(e: seq<Entry>) {
    forall i, j :: 0 <= i < j < |e| ==> e[i].fd != e[j].fd
  }

  // ---- The poller ----

  class Poller {
    var timers: seq<Timer>
    var nextId: nat
    var fds: seq<Entry>

    ghost predicate Valid()
      reads this
    {
      && Heap(timers) && DistinctIds(timers)
      && (forall x :: x in timers ==> x.id < nextId)
      && DistinctFds(fds)
    }

    constructor ()
      ensures Valid() && timers == [] && fds == []
    {
      timers, nextId, fds := [], 1, [];
    }

    method SiftUp(start: nat)
      requires start < |timers| && HeapButUp(timers, start) && Bridge(timers, start)
      modifies this`timers
      ensures Heap(timers) && multiset(timers) == multiset(old(timers))
    {
      var i: nat := start;
      while i > 0
        invariant i < |timers| && HeapButUp(timers, i) && Bridge(timers, i)
        invariant multiset(timers) == multiset(old(timers))
      {
        var p := (i - 1) / 2;
        if timers[p].deadline <= timers[i].deadline { break; }
        UpStep(timers, i);
        timers := Swap(timers, p, i);
        i := p;
      }
    }

    method SiftDown(start: nat)
      requires start < |timers| && HeapButBoth(timers, start, start) && Bridge(timers, start)
      modifies this`timers
      ensures HeapButUp(timers, start) && Bridge(timers, start)
      ensures |timers| == |old(timers)| && multiset(timers) == multiset(old(timers))
    {
      var i: nat := start;
      while true
        invariant i < |timers| == |old(timers)| && HeapButBoth(timers, start, i)
        invariant Bridge(timers, start) && Bridge(timers, i) && start <= i
        invariant i != start ==> HeadSettled(timers, start)
        invariant multiset(timers) == multiset(old(timers))
        decreases |timers| - i
      {
        hide HeapButBoth, HeapButUp, Bridge, HeadSettled, Swap;
        var l, r, m := 2 * i + 1, 2 * i + 2, i;
        if l < |timers| && timers[l].deadline < timers[m].deadline { m := l; }
        if r < |timers| && timers[r].deadline < timers[m].deadline { m := r; }
        SmallestChild(timers, i, m);
        if m == i {
          DownDone(timers, start, i);
          break;
        }
        DownStep(timers, start, i, m);
        timers := Swap(timers, m, i);
        i := m;
      }
    }

    // Removes slot i: the last timer fills it and finds its place.
    method DropTimer(i: nat)
      requires Heap(timers) && i < |timers|
      modifies this`timers
      ensures Heap(timers)
      ensures multiset(timers) + multiset{old(timers)[i]} == multiset(old(timers))
    {
      var last := timers[|timers| - 1];
      ghost var was := timers;
      timers := timers[..|timers| - 1];
      Shorter(was, i);
      if i != |timers| {
        Filled(was, timers, i, last);
        timers := timers[i := last];
        SiftDown(i);
        SiftUp(i);
      }
    }

    // Arms a timer. Its id has never been given out before.
    method AddTimer(ms: int, token: nat, now: int) returns (id: nat)
      requires Valid()
      modifies this`timers, this`nextId
      ensures Valid() && id == old(nextId) && nextId == id + 1
      ensures forall x :: x in old(timers) ==> x.id != id
      ensures multiset(timers) == multiset(old(timers)) + multiset{Timer(now + ms, id, token)}
    {
      id := nextId;
      nextId := nextId + 1;
      var x := Timer(now + ms, id, token);
      Appended(timers, x);
      hide HeapButUp, Bridge, DistinctIds, Heap, DistinctFds;
      timers := timers + [x];
      ghost var long := timers;
      SiftUp(|timers| - 1);
      SameIds(long, timers);
    }

    // Disarms a timer; an id that is not armed, because it fired or never was, is ignored.
    method RemoveTimer(id: nat)
      requires Valid()
      modifies this`timers
      ensures Valid()
      ensures (forall x :: x in old(timers) ==> x.id != id) ==> timers == old(timers)
      ensures forall x :: x in timers <==> x in old(timers) && x.id != id
    {
      for i := 0 to |timers|
        invariant timers == old(timers)
        invariant forall j :: 0 <= j < i ==> timers[j].id != id
      {
        if timers[i].id == id {
          ghost var was := timers;
          DropTimer(i);
          OneGone(was, timers, i);
          return;
        }
      }
    }

    method FindFd(fd: int) returns (i: int)
      ensures i == -1 <==> forall e :: e in fds ==> e.fd != fd
      ensures i != -1 ==> 0 <= i < |fds| && fds[i].fd == fd
    {
      for k := 0 to |fds|
        invariant forall j :: 0 <= j < k ==> fds[j].fd != fd
      {
        if fds[k].fd == fd { return k; }
      }
      return -1;
    }

    // Swap-removal: the last entry fills the hole.
    method DropFd(i: nat)
      requires i < |fds|
      modifies this`fds
      ensures fds == SwapRemoved(old(fds), i)
    {
      var last := fds[|fds| - 1];
      fds := fds[..|fds| - 1];
      if i != |fds| {
        fds := fds[i := last];
      }
    }

    // Watches fd, replacing what was watched there.
    method AddFd(fd: int, write: bool, token: nat)
      requires Valid()
      modifies this`fds
      ensures Valid()
      ensures forall e :: e in fds <==>
        e == Entry(fd, write, false, token) || (e in old(fds) && e.fd != fd)
    {
      var i := FindFd(fd);
      ghost var was := fds;
      if i < 0 {
        fds := fds + [Entry(fd, write, false, token)];
      } else {
        fds := fds[i := Entry(fd, write, false, token)];
        Replaced(was, i, fds[i]);
      }
    }

    method RemoveFd(fd: int)
      requires Valid()
      modifies this`fds
      ensures Valid()
      ensures forall e :: e in fds <==> e in old(fds) && e.fd != fd
    {
      var i := FindFd(fd);
      if i >= 0 {
        SwapRemovedMembers(fds, i);
        DropFd(i);
      }
    }

    // WSAPoll: the readiness of every watched socket is overwritten.
    method Probe(ready: set<int>)
      requires Valid()
      modifies this`fds
      ensures Valid() && fds == Probed(old(fds), ready)
    {
      fds := Probed(fds, ready);
    }

    // The ready sockets, at most limit of them, and where they are.
    method CollectFds(limit: nat) returns (hit: seq<nat>, hits: seq<Entry>)
      ensures |hits| == |hit| <= limit && Ascending(hit, |fds|)
      ensures forall k :: 0 <= k < |hit| ==> hits[k] == fds[hit[k]] && hits[k].ready
      ensures |hits| < limit ==> forall e :: e in fds && e.ready ==> e in hits
      ensures hits <= ReadyOnes(fds)
    {
      hide ReadyFrom;
      hit, hits := [], [];
      assert [] + ReadyFrom(fds, 0) == ReadyOnes(fds);
      var i := 0;
      while i < |fds| && |hits| < limit
        invariant i <= |fds| && |hits| == |hit| <= limit
        invariant Ascending(hit, i)
        invariant forall k :: 0 <= k < |hit| ==> hits[k] == fds[hit[k]] && hits[k].ready
        invariant forall j :: 0 <= j < i && fds[j].ready ==> fds[j] in hits
        invariant hits + ReadyFrom(fds, i) == ReadyOnes(fds)
      {
        ReadyStep(hits, fds, i);
        if fds[i].ready {
          hit := hit + [i];
          hits := hits + [fds[i]];
        }
        i := i + 1;
      }
    }

    // Drops the collected slots from the highest down: a drop never moves a lower one.
    method DropFds(hit: seq<nat>, ghost hits: seq<Entry>)
      requires Valid() && Ascending(hit, |fds|) && |hits| == |hit|
      requires forall k :: 0 <= k < |hit| ==> hits[k] == fds[hit[k]]
      modifies this`fds
      ensures Valid() && (hit == [] ==> fds == old(fds))
      ensures forall e :: e in fds <==> e in old(fds) && e !in hits
    {
      ghost var was := fds;
      var n: nat := |hit|;
      while n > 0
        invariant n <= |hit| && DistinctFds(fds) && (n == |hit| ==> fds == was)
        invariant n > 0 ==> hit[n - 1] < |fds| && fds[..hit[n - 1] + 1] == was[..hit[n - 1] + 1]
        invariant forall e :: e in fds <==> e in was && e !in hits[n..]
      {
        n := n - 1;
        DropHit(was, fds, hit, hits, n);
        DropFd(hit[n]);
      }
      assert hits[0..] == hits;
    }

    // Ready sockets, at most limit of them: collected first, dropped after.
    method HarvestFds(limit: nat) returns (hits: seq<Entry>)
      requires Valid()
      modifies this`fds
      ensures Valid() && |hits| <= limit && NoDup(hits) && hits <= ReadyOnes(old(fds))
      ensures forall e :: e in hits ==> e in old(fds) && e.ready
      ensures forall e :: e in fds <==> e in old(fds) && e !in hits
      ensures |hits| < limit ==> forall e :: e in fds ==> !e.ready
      ensures hits == [] ==> fds == old(fds)
    {
      var hit;
      hit, hits := CollectFds(limit);
      HitsDistinct(fds, hit, hits);
      DropFds(hit, hits);
    }

    // Due timers, at most limit of them, nearest deadline first.
    method HarvestTimers(limit: nat, now: int) returns (due: seq<Timer>)
      requires Valid()
      modifies this`timers
      ensures Valid() && |due| <= limit
      ensures multiset(timers) + multiset(due) == multiset(old(timers))
      ensures InOrder(due) && forall x :: x in due ==> x.deadline <= now
      ensures forall x, y :: x in due && y in timers ==> x.deadline <= y.deadline
      ensures |due| < limit ==> forall y :: y in timers ==> y.deadline > now
      ensures due == [] ==> timers == old(timers)
    {
      due := [];
      while timers != [] && |due| < limit && timers[0].deadline <= now
        invariant Valid() && |due| <= limit
        invariant multiset(timers) + multiset(due) == multiset(old(timers))
        invariant InOrder(due) && forall x :: x in due ==> x.deadline <= now
        invariant forall x, y :: x in due && y in timers ==> x.deadline <= y.deadline
        invariant due == [] ==> timers == old(timers)
        decreases |timers|
      {
        ghost var was := timers;
        RootIsFirst(was);
        due := due + [timers[0]];
        DropTimer(0);
        OneGone(was, timers, 0);
        assert |multiset(timers)| + 1 == |multiset(was)|;
      }
      if timers != [] {
        RootIsFirst(timers);
      }
    }

    // One wait and the batch it returns: it takes out exactly what it reports.
    method Round(ready: set<int>, now: int, max: nat)
      returns (out: seq<Report>, ghost hits: seq<Entry>, ghost due: seq<Timer>)
      requires Valid()
      modifies this`fds, this`timers
      ensures Valid() && out == Reports(hits, due)
      ensures FdsTaken(old(fds), ready, hits, fds) && TimersTaken(old(timers), now, due, timers)
      ensures |out| <= max && |out| <= 64
      ensures |out| < max && |out| < 64 ==> NothingLeft(fds, timers, ready, now)
      ensures out == [] ==> fds == Probed(old(fds), ready) && timers == old(timers)
    {
      Probe(ready);
      var taken := HarvestFds(Want(max));
      var late := HarvestTimers(Want(max) - |taken|, now);
      out := Reports(taken, late);
      hits, due := taken, late;
    }

    // sprout_poll_wait: waits again while a wait brings nothing. A turn asks the system to wait
    // until the nearest deadline; it stops the process if WSAPoll fails or nothing is registered.
    // StillWaiting is the end of the given turns.
    method Wait(turns: seq<Turn>, max: nat)
      returns (r: Waited, asked: seq<int>, ghost hits: seq<Entry>, ghost due: seq<Timer>)
      requires Valid()
      modifies this`fds, this`timers
      ensures Valid() && |asked| <= |turns|
      ensures forall k :: 0 <= k < |asked| ==> asked[k] == Timeout(old(timers), turns[k].before)
      ensures forall k :: 0 <= k < |asked| && (k < |asked| - 1 || r.StillWaiting?) ==>
                Quiet(old(fds), old(timers), turns[k], max)
      ensures forall k :: 0 <= k < |turns| && Brings(old(fds), old(timers), turns[k], max) ==>
                !r.StillWaiting? && |asked| <= k + 1 && (|asked| == k + 1 ==> r.Woke?)
      ensures match r
              case Woke(out) =>
                && asked != [] && var w := turns[|asked| - 1];
                && !Stops(old(fds), old(timers), w)
                && 0 < |out| <= max && |out| <= 64 && out == Reports(hits, due)
                && FdsTaken(old(fds), w.ready, hits, fds)
                && TimersTaken(old(timers), w.after, due, timers)
                && (|out| < max && |out| < 64 ==> NothingLeft(fds, timers, w.ready, w.after))
              case Aborted =>
                asked != [] && Stops(old(fds), old(timers), turns[|asked| - 1])
                && timers == old(timers) && SameWatched(old(fds), fds)
              case StillWaiting =>
                |asked| == |turns| && timers == old(timers) && SameWatched(old(fds), fds)
    {
      hide Heap, DistinctIds, DistinctFds, FdsTaken, TimersTaken, NothingLeft, Probed, Reports, Brings;
      hide Quiet, Clamped, Nearest, SameWatched;
      WatchedSelf(fds);
      asked, hits, due := [], [], [];
      for k := 0 to |turns|
        invariant Valid() && timers == old(timers) && SameWatched(old(fds), fds)
        invariant |asked| == k
        invariant forall i :: 0 <= i < k ==>
          && asked[i] == Timeout(old(timers), turns[i].before)
          && Quiet(old(fds), old(timers), turns[i], max)
          && !Brings(old(fds), old(timers), turns[i], max)
      {
        StopBrings(old(fds), old(timers), turns[k], max);
        var ms := Timeout(timers, turns[k].before);
        asked := asked + [ms];
        ghost var was := fds;
        ProbedSame(old(fds), was, turns[k].ready);
        if fds != [] {
          if turns[k].failed { return Aborted, asked, hits, due; }
        } else if ms < 0 {
          return Aborted, asked, hits, due;
        }
        var batch;
        batch, hits, due := Round(turns[k].ready, turns[k].after, max);
        TakenSame(old(fds), was, turns[k].ready, hits, fds);
        if batch != [] { return Woke(batch), asked, hits, due; }
        StillNothing(old(fds), timers, turns[k].ready, turns[k].after);
        StillQuiet(old(fds), timers, turns[k], max);
      }
      r := StillWaiting;
    }
  }

  // ---- What a wait takes ----

  // The entries found ready from slot i on, in table order.
  function ReadyFrom(e: seq<Entry>, i: nat): seq<Entry>
    decreases |e| - i
  {
    if i >= |e| then [] else (if e[i].ready then [e[i]] else []) + ReadyFrom(e, i + 1)
  }

  function ReadyOnes(e: seq<Entry>): seq<Entry> { ReadyFrom(e, 0) }

  lemma ReadyStep(hits: seq<Entry>, e: seq<Entry>, i: nat)
    requires i < |e|
    ensures hits + ReadyFrom(e, i)
         == (if e[i].ready then hits + [e[i]] else hits) + ReadyFrom(e, i + 1)
  {
    var rest := ReadyFrom(e, i + 1);
    assert hits + ([e[i]] + rest) == hits + [e[i]] + rest;
    assert [] + rest == rest;
  }

  // The sockets reported were watched and found ready, once each and in table order, and they
  // alone leave the table.
  ghost predicate FdsTaken(was: seq<Entry>, ready: set<int>, hits: seq<Entry>, now: seq<Entry>) {
    && NoDup(hits) && (forall e :: e in hits ==> e in Probed(was, ready) && e.ready)
    && hits <= ReadyOnes(Probed(was, ready))
    && (forall e :: e in now <==> e in Probed(was, ready) && e !in hits)
  }

  // The timers reported were due, nearest deadline first, none that stays is nearer, and they
  // alone leave the heap.
  ghost predicate TimersTaken(was: seq<Timer>, now: int, due: seq<Timer>, left: seq<Timer>) {
    && multiset(left) + multiset(due) == multiset(was)
    && InOrder(due) && (forall x :: x in due ==> x.deadline <= now)
    && (forall x, y :: x in due && y in left ==> x.deadline <= y.deadline)
  }

  ghost predicate NothingLeft(fds: seq<Entry>, timers: seq<Timer>, ready: set<int>, now: int) {
    && (forall e :: e in fds ==> e.fd !in ready)
    && (forall y :: y in timers ==> y.deadline > now)
  }

  // The turn ends the process: nothing is registered, or the system's wait fails.
  predicate Stops(fds: seq<Entry>, timers: seq<Timer>, w: Turn) {
    if fds == [] then timers == [] else w.failed
  }

  // The turn brings nothing, so the loop goes round.
  ghost predicate Quiet(fds: seq<Entry>, timers: seq<Timer>, w: Turn, max: nat) {
    !Stops(fds, timers, w) && (max > 0 ==> NothingLeft(fds, timers, w.ready, w.after))
  }

  // The turn finds something to report.
  ghost predicate Brings(fds: seq<Entry>, timers: seq<Timer>, w: Turn, max: nat) {
    && max > 0 && !Stops(fds, timers, w)
    && ((exists e :: e in fds && e.fd in w.ready) || exists x :: x in timers && x.deadline <= w.after)
  }

  lemma StopBrings(fds: seq<Entry>, timers: seq<Timer>, w: Turn, max: nat)
    ensures Stops(fds, timers, w) ==> !Brings(fds, timers, w, max)
  {
  }

  lemma StillQuiet(fds: seq<Entry>, timers: seq<Timer>, w: Turn, max: nat)
    requires !Stops(fds, timers, w) && (max > 0 ==> NothingLeft(fds, timers, w.ready, w.after))
    ensures Quiet(fds, timers, w, max) && !Brings(fds, timers, w, max)
  {
  }

  lemma WatchedSelf(a: seq<Entry>)
    ensures SameWatched(a, a)
  {
  }

  // A probe forgets what an earlier one found.
  lemma ProbedSame(was: seq<Entry>, now: seq<Entry>, ready: set<int>)
    requires SameWatched(was, now)
    ensures Probed(now, ready) == Probed(was, ready) && SameWatched(was, Probed(was, ready))
    ensures |now| == |was|
  {
  }

  lemma TakenSame(was: seq<Entry>, probed: seq<Entry>, ready: set<int>, hits: seq<Entry>,
                  now: seq<Entry>)
    requires SameWatched(was, probed) && FdsTaken(probed, ready, hits, now)
    ensures FdsTaken(was, ready, hits, now)
  {
    ProbedSame(was, probed, ready);
    hide Probed;
  }

  lemma StillNothing(was: seq<Entry>, timers: seq<Timer>, ready: set<int>, now: int)
    ensures NothingLeft(Probed(was, ready), timers, ready, now) ==>
              NothingLeft(was, timers, ready, now)
  {
    if NothingLeft(Probed(was, ready), timers, ready, now) {
      forall e | e in was ensures e.fd !in ready {
        var i :| 0 <= i < |was| && was[i] == e;
        assert Probed(was, ready)[i] in Probed(was, ready);
      }
    }
  }

  // The tokens of a batch: sockets in table order, then timers, nearest deadline first.
  function Reports(hits: seq<Entry>, due: seq<Timer>): (r: seq<Report>)
    ensures |r| == |hits| + |due|
  {
    seq(|hits|, i requires 0 <= i < |hits| => Report(hits[i].token, false))
    + seq(|due|, i requires 0 <= i < |due| => Report(due[i].token, true))
  }

  function Want(max: nat): nat { if max < BATCH then max else BATCH }

  function Probed(e: seq<Entry>, ready: set<int>): (r: seq<Entry>)
    ensures |r| == |e|
  {
    seq(|e|, i requires 0 <= i < |e| => e[i].(ready := e[i].fd in ready))
  }

  // The same sockets watched for the same things with the same tokens.
  ghost predicate SameWatched(a: seq<Entry>, b: seq<Entry>) {
    |a| == |b| && forall i :: 0 <= i < |a| ==> b[i] == a[i].(ready := b[i].ready)
  }

  ghost predicate InOrder(t: seq<Timer>) {
    forall i, j :: 0 <= i < j < |t| ==> t[i].deadline <= t[j].deadline
  }

  ghost predicate Ascending(h: seq<nat>, n: nat) {
    && (forall i, j :: 0 <= i < j < |h| ==> h[i] < h[j])
    && (forall i :: 0 <= i < |h| ==> h[i] < n)
  }

  lemma RootIsFirst(t: seq<Timer>)
    requires Heap(t) && t != []
    ensures forall x :: x in t ==> t[0].deadline <= x.deadline
  {
    forall j | 0 <= j < |t| ensures t[0].deadline <= t[j].deadline {
      RootFirst(t, j);
    }
  }

  lemma HitsDistinct(was: seq<Entry>, hit: seq<nat>, hits: seq<Entry>)
    requires DistinctFds(was) && Ascending(hit, |was|) && |hits| == |hit|
    requires forall k :: 0 <= k < |hit| ==> hits[k] == was[hit[k]]
    ensures NoDup(hits)
  {
  }

  // Dropping the highest hit left moves no lower entry.
  lemma DropHit(was: seq<Entry>, fds: seq<Entry>, hit: seq<nat>, hits: seq<Entry>, n: nat)
    requires DistinctFds(was) && DistinctFds(fds) && Ascending(hit, |was|) && |hits| == |hit|
    requires forall k :: 0 <= k < |hit| ==> hits[k] == was[hit[k]]
    requires n < |hit| && hit[n] < |fds| && fds[..hit[n] + 1] == was[..hit[n] + 1]
    requires forall e :: e in fds <==> e in was && e !in hits[n + 1..]
    ensures var r := SwapRemoved(fds, hit[n]);
      && DistinctFds(r)
      && (n > 0 ==> hit[n - 1] < |r| && r[..hit[n - 1] + 1] == was[..hit[n - 1] + 1])
      && (forall e :: e in r <==> e in was && e !in hits[n..])
  {
    var i := hit[n];
    var r := SwapRemoved(fds, i);
    SwapRemovedMembers(fds, i);
    assert fds[i] == fds[..i + 1][i] == was[..i + 1][i] == was[i];
    assert hits[n..] == [hits[n]] + hits[n + 1..];
    forall e | e in was && e.fd == was[i].fd ensures e == was[i] {
    }
    if n > 0 {
      var m := hit[n - 1] + 1;
      assert m <= i;
      assert forall j :: 0 <= j < m ==> r[j] == fds[j] && fds[j] == fds[..i + 1][j];
    }
  }

  function SwapRemoved(e: seq<Entry>, i: nat): (r: seq<Entry>)
    requires i < |e|
    ensures |r| == |e| - 1
  {
    if i == |e| - 1 then e[..i] else e[..|e| - 1][i := e[|e| - 1]]
  }

  lemma SwapRemovedMembers(e: seq<Entry>, i: nat)
    requires DistinctFds(e) && i < |e|
    ensures DistinctFds(SwapRemoved(e, i))
    ensures forall x :: x in SwapRemoved(e, i) <==> x in e && x.fd != e[i].fd
  {
    var r := SwapRemoved(e, i);
    forall x | x in e && x.fd != e[i].fd ensures x in r {
      var j :| 0 <= j < |e| && e[j] == x;
      assert r[if j == |e| - 1 then i else j] == x;
    }
  }

  lemma Replaced(e: seq<Entry>, i: nat, x: Entry)
    requires DistinctFds(e) && i < |e| && x.fd == e[i].fd
    ensures DistinctFds(e[i := x])
    ensures forall y :: y in e[i := x] <==> y == x || (y in e && y.fd != x.fd)
  {
    var r := e[i := x];
    forall y | y == x || (y in e && y.fd != x.fd) ensures y in r {
      if y == x {
        assert r[i] == y;
      } else {
        var j :| 0 <= j < |e| && e[j] == y;
        assert r[j] == y;
      }
    }
  }

  lemma Shorter(t: seq<Timer>, i: nat)
    requires Heap(t) && i < |t|
    ensures Heap(t[..|t| - 1])
    ensures multiset(t) == multiset(t[..|t| - 1]) + multiset{t[|t| - 1]}
  {
    var s := t[..|t| - 1];
    assert t == s + [t[|t| - 1]];
    forall j | 0 < j < |s| ensures Ordered(s, j) {
      assert Ordered(t, j);
    }
  }

  // A slot of a heap filled with another timer: order can only fail around that slot.
  lemma Filled(was: seq<Timer>, t: seq<Timer>, i: nat, x: Timer)
    requires Heap(t) && i < |t|
    ensures HeapButBoth(t[i := x], i, i) && Bridge(t[i := x], i)
    ensures multiset(t[i := x]) + multiset{t[i]} == multiset(t) + multiset{x}
  {
    var s := t[i := x];
    forall j | 0 < j < |s| && j != i && Parent(j) != i ensures Ordered(s, j) {
      assert Ordered(t, j);
    }
    forall j | 0 < j < |s| && Parent(j) == i && i > 0
      ensures s[Parent(i)].deadline <= s[j].deadline
    {
      assert Ordered(t, j) && Ordered(t, i);
    }
  }

  lemma Appended(t: seq<Timer>, x: Timer)
    requires Heap(t) && DistinctIds(t) && forall y :: y in t ==> y.id < x.id
    ensures HeapButUp(t + [x], |t|) && Bridge(t + [x], |t|) && DistinctIds(t + [x])
    ensures forall y :: y in t + [x] <==> y in t || y == x
  {
    var s := t + [x];
    forall j | 0 < j < |s| && j != |t| ensures Ordered(s, j) {
      assert Ordered(t, j);
    }
  }

  // Being distinct and below a bound are properties of the multiset.
  lemma SameIds(s: seq<Timer>, t: seq<Timer>)
    requires multiset(s) == multiset(t) && DistinctIds(s)
    ensures DistinctIds(t) && forall x :: x in s <==> x in t
  {
    assert forall x :: x in s <==> x in multiset(s);
    forall i, j | 0 <= i < j < |t| ensures t[i].id != t[j].id {
      if t[i].id == t[j].id {
        Twice(t, i, j);
        assert t[i] in multiset(s) && t[j] in multiset(s);
        Unique(s, t[i], t[j]);
      }
    }
  }

  lemma Twice(t: seq<Timer>, i: nat, j: nat)
    requires i < j < |t|
    ensures t[i] == t[j] ==> multiset(t)[t[i]] >= 2
  {
    assert t == t[..j] + [t[j]] + t[j + 1..];
    assert t[i] in t[..j];
  }

  lemma Unique(s: seq<Timer>, x: Timer, y: Timer)
    requires DistinctIds(s) && x in s && y in s && x.id == y.id
    ensures x == y && multiset(s)[x] == 1
  {
    var i :| 0 <= i < |s| && s[i] == x;
    var j :| 0 <= j < |s| && s[j] == y;
    assert i == j;
    assert s == s[..i] + [x] + s[i + 1..];
    assert x !in s[..i] && x !in s[i + 1..];
  }

  lemma OneGone(was: seq<Timer>, now: seq<Timer>, i: nat)
    requires DistinctIds(was) && i < |was|
    requires multiset(now) + multiset{was[i]} == multiset(was)
    ensures DistinctIds(now)
    ensures forall x :: x in now <==> x in was && x.id != was[i].id
  {
    var back := now + [was[i]];
    SameIds(was, back);
    assert forall j :: 0 <= j < |now| ==> back[j] == now[j];
    assert forall x :: x in back <==> x in now || x == was[i];
    Unique(was, was[i], was[i]);
    assert back[|now|] == was[i];
  }

  // Once something has moved up into i, it is no earlier than i's parent.
  ghost predicate HeadSettled(t: seq<Timer>, i: nat) {
    i < |t| && (i > 0 ==> t[Parent(i)].deadline <= t[i].deadline)
  }

  // m is the earlier of i and its children.
  lemma SmallestChild(t: seq<Timer>, i: nat, m: nat)
    requires i < |t| && m < |t| && (m == i || m == 2 * i + 1 || m == 2 * i + 2)
    requires t[m].deadline <= t[i].deadline
    requires 2 * i + 1 < |t| ==> t[m].deadline <= t[2 * i + 1].deadline
    requires 2 * i + 2 < |t| ==> t[m].deadline <= t[2 * i + 2].deadline
    ensures forall j :: 0 < j < |t| && Parent(j) == i ==> t[m].deadline <= t[j].deadline
    ensures m != i ==> i < m && Parent(m) == i
  {
  }

  lemma DownDone(t: seq<Timer>, start: nat, i: nat)
    requires i < |t| && HeapButBoth(t, start, i)
    requires forall j :: 0 < j < |t| && Parent(j) == i ==> t[i].deadline <= t[j].deadline
    ensures HeapButUp(t, start)
  {
  }

  lemma UpStep(t: seq<Timer>, i: nat)
    requires 0 < i < |t| && HeapButUp(t, i) && Bridge(t, i)
    requires t[i].deadline < t[Parent(i)].deadline
    ensures HeapButUp(Swap(t, Parent(i), i), Parent(i))
    ensures Bridge(Swap(t, Parent(i), i), Parent(i))
  {
    var p := Parent(i);
    var t' := Swap(t, p, i);
    assert p > 0 ==> Ordered(t, p);
    forall j | 0 < j < |t| && j != p ensures Ordered(t', j) {
      if j != i {
        assert Ordered(t, j);
      }
    }
    forall j | 0 < j < |t| && Parent(j) == p && p > 0
      ensures t'[Parent(p)].deadline <= t'[j].deadline
    {
      if j != i {
        assert Ordered(t, j);
      }
    }
  }

  lemma DownStep(t: seq<Timer>, start: nat, i: nat, m: nat)
    requires start <= i < m < |t| && Parent(m) == i
    requires HeapButBoth(t, start, i) && Bridge(t, start) && Bridge(t, i)
    requires i != start ==> HeadSettled(t, start)
    requires t[m].deadline < t[i].deadline
    requires forall j :: 0 < j < |t| && Parent(j) == i ==> t[m].deadline <= t[j].deadline
    ensures var t' := Swap(t, m, i);
      HeapButBoth(t', start, m) && Bridge(t', start) && Bridge(t', m) && HeadSettled(t', start)
  {
    var t' := Swap(t, m, i);
    forall j | 0 < j < |t| && j != start && Parent(j) != m ensures Ordered(t', j) {
      if j != m && j != i && Parent(j) != i {
        assert Ordered(t, j);
      }
    }
    forall j | 0 < j < |t| && Parent(j) == m ensures t'[i].deadline <= t'[j].deadline {
      assert Ordered(t, j);
    }
    forall j | 0 < j < |t| && Parent(j) == start && start > 0
      ensures t'[Parent(start)].deadline <= t'[j].deadline
    {
    }
  }
}
