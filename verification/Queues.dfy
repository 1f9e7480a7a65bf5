// The intrusive queues of the scheduler: links kept in the task records themselves.
module Queues {
  import opened Common

  // The link fields and flags of a task record.
  class Task {
    var chanPrev: Task?
    var chanNext: Task?
    var ioPrev: Task?
    var ioNext: Task?
    var next: Task?
    var inRq: bool
    var onIo: bool

    constructor ()
      ensures chanPrev == chanNext == ioPrev == ioNext == next == null && !inRq && !onIo
    {
      chanPrev, chanNext, ioPrev, ioNext, next := null, null, null, null, null;
      inRq, onIo := false, false;
    }
  }

  // Removing the element at position k.
  function Cut<T>(q: seq<T>, k: nat): (r: seq<T>)
    requires k < |q|
    ensures |r| == |q| - 1
  {
    q[..k] + q[k + 1..]
  }

  // A queue without the task t, the others in their order.
  ghost function Removed<T>(q: seq<T>, t: T): seq<T> {
    if q == [] then []
    else if q[0] == t then q[1..]
    else [q[0]] + Removed(q[1..], t)
  }

  lemma {:induction false} CutIsRemoved<T>(q: seq<T>, k: nat)
    requires NoDup(q) && k < |q|
    ensures Cut(q, k) == Removed(q, q[k])
  {
    if k > 0 {
      NoDupTail(q);
      CutIsRemoved(q[1..], k - 1);
      assert q[k] in q[1..];
      assert Cut(q, k) == [q[0]] + Cut(q[1..], k - 1);
    }
  }

  // On queues without duplicates it is the removal the scheduler's steps are stated with.
  lemma {:induction false} RemovedIsWithout<T(!new)>(q: seq<T>, t: T)
    requires NoDup(q)
    ensures Removed(q, t) == Without(q, {t})
  {
    if q != [] {
      NoDupTail(q);
      if q[0] == t {
        WithoutNothing(q[1..], {t});
      } else {
        RemovedIsWithout(q[1..], t);
      }
    }
  }

  // Where a position of the cut queue was.
  function Source(k: nat, j: nat): nat { if j < k then j else j + 1 }

  lemma CutFrom<T>(q: seq<T>, k: nat)
    requires NoDup(q) && k < |q|
    ensures forall j :: 0 <= j < |Cut(q, k)| ==> Cut(q, k)[j] == q[Source(k, j)]
    ensures NoDup(Cut(q, k)) && q[k] !in Cut(q, k)
  {
    var r := Cut(q, k);
    assert forall j :: 0 <= j < |r| ==> r[j] == q[Source(k, j)];
  }

  // Consecutive tasks point at each other, with the task at position skip passed over.
  ghost predicate ChanLinked(q: seq<Task>, skip: int)
    reads (set t | t in q)`chanPrev, (set t | t in q)`chanNext
  {
    forall i, j :: 0 <= i < j < |q| && i != skip && j != skip
                   && (j == i + 1 || (i + 1 == skip && j == skip + 1)) ==>
      q[i].chanNext == q[j] && q[j].chanPrev == q[i]
  }

  lemma ChanCut(q: seq<Task>, k: nat)
    requires NoDup(q) && k < |q| && ChanLinked(q, k)
    ensures ChanLinked(Cut(q, k), -1)
  {
    CutFrom(q, k);
    var r := Cut(q, k);
    forall i, j | 0 <= i < j < |r| && j == i + 1
      ensures r[i].chanNext == r[j] && r[j].chanPrev == r[i]
    {
      assert r[i] == q[Source(k, i)] && r[j] == q[Source(k, j)];
    }
  }

  lemma ChanBack(q: seq<Task>, t: Task)
    requires ChanLinked(q, -1)
    requires q != [] ==> q[|q| - 1].chanNext == t && t.chanPrev == q[|q| - 1]
    ensures ChanLinked(q + [t], -1)
  {
    var r := q + [t];
    assert forall i :: 0 <= i < |q| ==> r[i] == q[i];
  }

  // Consecutive tasks point at each other, with the task at position skip passed over.
  ghost predicate IoLinked(q: seq<Task>, skip: int)
    reads (set t | t in q)`ioPrev, (set t | t in q)`ioNext
  {
    forall i, j :: 0 <= i < j < |q| && i != skip && j != skip
                   && (j == i + 1 || (i + 1 == skip && j == skip + 1)) ==>
      q[i].ioNext == q[j] && q[j].ioPrev == q[i]
  }

  lemma IoCut(q: seq<Task>, k: nat)
    requires NoDup(q) && k < |q| && IoLinked(q, k)
    ensures IoLinked(Cut(q, k), -1)
  {
    CutFrom(q, k);
    var r := Cut(q, k);
    forall i, j | 0 <= i < j < |r| && j == i + 1
      ensures r[i].ioNext == r[j] && r[j].ioPrev == r[i]
    {
      assert r[i] == q[Source(k, i)] && r[j] == q[Source(k, j)];
    }
  }

  lemma IoFront(q: seq<Task>, t: Task)
    requires IoLinked(q, -1) && (q != [] ==> t.ioNext == q[0] && q[0].ioPrev == t)
    ensures IoLinked([t] + q, -1)
  {
    var r := [t] + q;
    assert forall i :: 0 < i < |r| ==> r[i] == q[i - 1];
  }

  // ---- A channel's send or receive queue ----

  class ChanQueue {
    var head: Task?
    var tail: Task?
    ghost var nodes: seq<Task>
    ghost var repr: set<Task>    // every task this queue has linked

    // Where the list starts and ends, with the task at position skip passed over.
    ghost predicate Ends(q: seq<Task>, skip: int)
      reads `head, `tail, (set t | t in q)`chanPrev, (set t | t in q)`chanNext
    {
      var first := if skip == 0 then 1 else 0;
      var last := if skip == |q| - 1 then |q| - 2 else |q| - 1;
      if first > last then head == null && tail == null
      else
        && head == q[first] && q[first].chanPrev == null
        && tail == q[last] && q[last].chanNext == null
    }

    ghost predicate Valid()
      reads this, repr`chanPrev, repr`chanNext
    {
      && (forall i :: 0 <= i < |nodes| ==> nodes[i] in repr)
      && NoDup(nodes) && ChanLinked(nodes, -1) && Ends(nodes, -1)
    }

    constructor ()
      ensures Valid() && nodes == [] && repr == {}
    {
      head, tail, nodes, repr := null, null, [], {};
    }

    method Push(t: Task)
      requires Valid() && t !in nodes
      modifies this, t`chanPrev, t`chanNext, repr`chanPrev, repr`chanNext
      ensures Valid() && nodes == old(nodes) + [t] && repr == old(repr) + {t}
    {
      hide NoDup, ChanLinked;
      LinkBack(t);
      ChanBack(nodes, t);
      NoDupSnoc(nodes, t);
      nodes := nodes + [t];
      repr := repr + {t};
    }

    // The pointer work of a push: the old tail points at t, which points back.
    method LinkBack(t: Task)
      requires Valid() && t !in nodes
      modifies `head, `tail, t`chanPrev, t`chanNext, repr`chanNext
      ensures tail == t && t.chanNext == null && ChanLinked(nodes, -1)
      ensures t.chanPrev == if nodes == [] then null else nodes[|nodes| - 1]
      ensures nodes != [] ==> nodes[|nodes| - 1].chanNext == t
      ensures head == (if nodes == [] then t else nodes[0]) && head.chanPrev == null
    {
      t.chanNext := null;
      t.chanPrev := tail;
      if tail != null {
        tail.chanNext := t;
      } else {
        head := t;
      }
      tail := t;
    }

    method Pop() returns (t: Task?)
      requires Valid()
      modifies this, repr`chanPrev, repr`chanNext
      ensures Valid() && repr == old(repr)
      ensures t == null <==> old(nodes) == []
      ensures t == null ==> nodes == []
      ensures t != null ==> [t] + nodes == old(nodes) && t.chanPrev == t.chanNext == null
      ensures t != null ==> t in repr && t !in nodes
    {
      t := head;
      if t == null { return; }
      NoDupTail(nodes);
      assert |nodes| > 1 ==> t.chanNext == nodes[1];
      head := t.chanNext;
      if head != null {
        head.chanPrev := null;
      } else {
        tail := null;
      }
      t.chanNext, t.chanPrev := null, null;
      nodes := nodes[1..];
    }

    // Unlinks a queued task in constant time, wherever it is.
    method Remove(t: Task)
      requires Valid() && t in nodes
      modifies this, repr`chanPrev, repr`chanNext
      ensures Valid() && nodes == Removed(old(nodes), t) && repr == old(repr)
      ensures t.chanPrev == t.chanNext == null
    {
      ghost var k :| 0 <= k < |nodes| && nodes[k] == t;
      hide NoDup, ChanLinked, Cut, Removed, Ends;
      ghost var q := nodes;
      CutIsRemoved(q, k);
      Bypass(t, k);
      nodes := Cut(q, k);
      Rebuilt(q, k);
    }

    // The pointer work of a removal: the neighbours of t point past it.
    method Bypass(t: Task, ghost k: nat)
      requires Valid() && k < |nodes| && nodes[k] == t
      modifies this, repr`chanPrev, repr`chanNext
      ensures nodes == old(nodes) && repr == old(repr)
      ensures t.chanPrev == t.chanNext == null && ChanLinked(nodes, k)
      ensures Ends(nodes, k)
    {
      assert t.chanPrev == if k > 0 then nodes[k - 1] else null;
      assert t.chanNext == if k + 1 < |nodes| then nodes[k + 1] else null;
      if t.chanPrev != null {
        t.chanPrev.chanNext := t.chanNext;
      } else {
        head := t.chanNext;
      }
      if t.chanNext != null {
        t.chanNext.chanPrev := t.chanPrev;
      } else {
        tail := t.chanPrev;
      }
      t.chanNext, t.chanPrev := null, null;
    }

    lemma Rebuilt(q: seq<Task>, k: nat)
      requires NoDup(q) && k < |q| && nodes == Cut(q, k)
      requires forall j :: 0 <= j < |q| ==> q[j] in repr
      requires ChanLinked(q, k) && Ends(q, k)
      ensures Valid()
    {
      hide ChanLinked;
      ChanCut(q, k);
      CutFrom(q, k);
    }
  }

  // ---- The poller's list: last in, first out, and O(1) removal ----

  class IoList {
    var head: Task?
    ghost var nodes: seq<Task>
    ghost var repr: set<Task>

    ghost predicate Ends(q: seq<Task>, skip: int)
      reads `head, (set t | t in q)`ioPrev, (set t | t in q)`ioNext
    {
      var first := if skip == 0 then 1 else 0;
      var last := if skip == |q| - 1 then |q| - 2 else |q| - 1;
      if first > last then head == null
      else head == q[first] && q[first].ioPrev == null && q[last].ioNext == null
    }

    ghost predicate Valid()
      reads this, repr`ioPrev, repr`ioNext, repr`onIo
    {
      && (forall i :: 0 <= i < |nodes| ==> nodes[i] in repr)
      && NoDup(nodes) && IoLinked(nodes, -1) && Ends(nodes, -1)
      && (forall t :: t in repr ==> (t.onIo <==> t in nodes))
    }

    constructor ()
      ensures Valid() && nodes == [] && repr == {}
    {
      head, nodes, repr := null, [], {};
    }

    method Push(t: Task)
      requires Valid() && t !in nodes
      modifies this, t`ioPrev, t`ioNext, t`onIo, repr`ioPrev, repr`ioNext
      ensures Valid() && nodes == [t] + old(nodes) && repr == old(repr) + {t}
    {
      hide NoDup, IoLinked;
      LinkFront(t);
      IoFront(nodes, t);
      NoDupSnoc(nodes, t);
      nodes := [t] + nodes;
      repr := repr + {t};
    }

    // The pointer work of a push: t points at the old head, which points back.
    method LinkFront(t: Task)
      requires Valid() && t !in nodes
      modifies `head, t`ioPrev, t`ioNext, t`onIo, repr`ioPrev
      ensures head == t && t.ioPrev == null && t.onIo && IoLinked(nodes, -1)
      ensures t.ioNext == if nodes == [] then null else nodes[0]
      ensures nodes != [] ==> nodes[0].ioPrev == t && nodes[|nodes| - 1].ioNext == null
    {
      t.ioPrev := null;
      t.ioNext := head;
      if head != null {
        head.ioPrev := t;
      }
      head := t;
      t.onIo := true;
    }

    // Unlinks a queued task in constant time, wherever it is.
    method Remove(t: Task)
      requires Valid() && t in nodes
      modifies this, repr`ioPrev, repr`ioNext, t`onIo
      ensures Valid() && nodes == Removed(old(nodes), t) && repr == old(repr)
      ensures t.ioPrev == t.ioNext == null && !t.onIo
    {
      ghost var k :| 0 <= k < |nodes| && nodes[k] == t;
      hide NoDup, IoLinked, Cut, Removed, Ends;
      ghost var q := nodes;
      CutIsRemoved(q, k);
      Bypass(t, k);
      nodes := Cut(q, k);
      Rebuilt(q, k);
    }

    // The pointer work of a removal: the neighbours of t point past it.
    method Bypass(t: Task, ghost k: nat)
      requires Valid() && k < |nodes| && nodes[k] == t
      modifies this, repr`ioPrev, repr`ioNext, t`onIo
      ensures nodes == old(nodes) && repr == old(repr)
      ensures t.ioPrev == t.ioNext == null && IoLinked(nodes, k)
      ensures Ends(nodes, k)
      ensures !t.onIo
    {
      assert t.ioPrev == if k > 0 then nodes[k - 1] else null;
      assert t.ioNext == if k + 1 < |nodes| then nodes[k + 1] else null;
      if t.ioPrev != null {
        t.ioPrev.ioNext := t.ioNext;
      } else {
        head := t.ioNext;
      }
      if t.ioNext != null {
        t.ioNext.ioPrev := t.ioPrev;
      }
      t.ioNext, t.ioPrev := null, null;
      t.onIo := false;
    }

    lemma Rebuilt(q: seq<Task>, k: nat)
      requires NoDup(q) && k < |q| && nodes == Cut(q, k)
      requires forall j :: 0 <= j < |q| ==> q[j] in repr
      requires IoLinked(q, k) && Ends(q, k)
      requires forall t :: t in repr ==> (t.onIo <==> t in q && t != q[k])
      ensures Valid()
    {
      hide IoLinked;
      IoCut(q, k);
      CutFrom(q, k);
    }
  }

  // ---- The ready queue: singly linked, first in, first out ----

  class ReadyQueue {
    var head: Task?
    var tail: Task?
    ghost var nodes: seq<Task>
    ghost var repr: set<Task>

    ghost predicate Valid()
      reads this, repr`next, repr`inRq
    {
      && (forall i :: 0 <= i < |nodes| ==> nodes[i] in repr)
      && (forall t :: t in repr ==> (t.inRq <==> t in nodes))
      && NoDup(nodes)
      && (forall i, j :: 0 <= i < j < |nodes| && j == i + 1 ==> nodes[i].next == nodes[j])
      && (if nodes == [] then head == null && tail == null
          else head == nodes[0] && tail == nodes[|nodes| - 1] && tail.next == null)
    }

    constructor ()
      ensures Valid() && nodes == [] && repr == {}
    {
      head, tail, nodes, repr := null, null, [], {};
    }

    // The caller must know that t is not queued: the code does not check it, and pushing a
    // queued task would make the list a cycle.
    method Push(t: Task)
      requires Valid() && t !in nodes
      modifies this, t`next, t`inRq, repr`next
      ensures Valid() && nodes == old(nodes) + [t] && repr == old(repr) + {t}
    {
      hide NoDup;
      t.next := null;
      if tail == null {
        head, tail := t, t;
      } else {
        tail.next := t;
        tail := t;
      }
      t.inRq := true;
      NoDupSnoc(nodes, t);
      nodes := nodes + [t];
      repr := repr + {t};
    }

    method Pop() returns (t: Task?)
      requires Valid()
      modifies this, repr`next, repr`inRq
      ensures Valid() && repr == old(repr)
      ensures t == null <==> old(nodes) == []
      ensures t == null ==> nodes == []
      ensures t != null ==> [t] + nodes == old(nodes) && !t.inRq && t.next == null
    {
      t := head;
      if t == null { return; }
      NoDupTail(nodes);
      assert |nodes| > 1 ==> t.next == nodes[1];
      head := t.next;
      if head == null {
        tail := null;
      }
      t.next := null;
      t.inRq := false;
      nodes := nodes[1..];
    }
  }

  // ---- Queues over the same tasks ----

  // One event of a poll batch: its task moves from the poller's list to the ready queue, unless
  // an earlier event of the batch has moved it.
  method WakeParked(io: IoList, rq: ReadyQueue, t: Task)
    requires io.Valid() && rq.Valid() && t in io.repr && (t in io.nodes ==> t !in rq.nodes)
    modifies io, io.repr`ioPrev, io.repr`ioNext, t`onIo, rq, rq.repr`next, t`next, t`inRq
    ensures io.Valid() && rq.Valid()
    ensures if t in old(io.nodes) then
              io.nodes == Removed(old(io.nodes), t) && rq.nodes == old(rq.nodes) + [t]
            else io.nodes == old(io.nodes) && rq.nodes == old(rq.nodes)
  {
    hide NoDup, Removed, IoLinked;
    if t.onIo {
      io.Remove(t);
      rq.Push(t);
    }
  }

  // The wakes of a close: everyone on a channel's queue moves to the ready queue, in order.
  method WakeAll(q: ChanQueue, rq: ReadyQueue)
    requires q.Valid() && rq.Valid() && forall t :: t in q.nodes ==> t !in rq.nodes
    modifies q, q.repr`chanPrev, q.repr`chanNext, q.repr`next, q.repr`inRq
    modifies rq, rq.repr`next
    ensures q.Valid() && rq.Valid()
    ensures q.nodes == [] && rq.nodes == old(rq.nodes) + old(q.nodes)
  {
    hide *;
    var t := q.Pop();
    while t != null
      invariant q.Valid() && rq.Valid() && q.repr == old(q.repr)
      invariant rq.repr <= old(rq.repr) + old(q.repr)
      invariant t == null ==> q.nodes == []
      invariant t != null ==> t in q.repr && t !in q.nodes
      invariant forall u :: u in q.nodes || u == t ==> u !in rq.nodes
      invariant rq.nodes + (if t == null then [] else [t]) + q.nodes == old(rq.nodes) + old(q.nodes)
      decreases |q.nodes|, t != null
    {
      rq.Push(t);
      t := q.Pop();
    }
  }
}
