// The growable ring of a bounded channel.
module ChanRing {

  const INT64_MAX: nat := 0x7fff_ffff_ffff_ffff
  const INITIAL_SLOTS: nat := 16

  // The slot that is p places after head in a ring of n slots.
  function At(head: nat, p: nat, n: nat): (i: nat)
    requires head < n && p <= n
    ensures i < n
  {
    if head + p < n then head + p else head + p - n
  }

  // What the code computes with the remainder operator.
  lemma AtMod(head: nat, p: nat, n: nat)
    requires head < n && p <= n
    ensures (head + p) % n == At(head, p, n)
  {
    if head + p >= n {
      assert head + p == (head + p - n) + 1 * n;
    }
  }

  // The size a full ring grows to.
  function Want(slots: nat, cap: nat): (w: nat)
    requires 1 <= slots < cap <= INT64_MAX
    ensures w == if 2 * slots < cap then 2 * slots else cap
    ensures slots < w <= cap
  {
    if slots > cap / 2 then cap else slots * 2
  }

  class Ring {
    const cap: nat
    var buffer: array<int>
    var scanned: array<int>      // the block the collector's root covers
    var count: nat
    var head: nat
    var tail: nat

    ghost var contents: seq<int> // oldest first
    ghost var enqueued: nat      // values ever put in
    ghost var copied: nat        // values moved by growing, ever

    ghost const first: nat       // slots at creation

    ghost predicate Shape()
      reads this, buffer
    {
      && cap <= INT64_MAX && scanned == buffer
      && count == |contents| <= buffer.Length <= cap
      && (if cap == 0 then buffer.Length == 0 && head == tail == 0
          else head < buffer.Length && tail == At(head, count, buffer.Length))
    }

    // Every slot outside the live window is 0, so that a drained slot pins nothing.
    ghost predicate Cells()
      requires Shape()
      reads this, buffer
    {
      && (forall p :: 0 <= p < count ==> buffer[At(head, p, buffer.Length)] == contents[p])
      && (forall p :: count <= p < buffer.Length ==> buffer[At(head, p, buffer.Length)] == 0)
    }

    // Copying is paid for: it stays below twice the values enqueued.
    ghost predicate Paid()
      reads this, buffer
    {
      && first == (if cap < INITIAL_SLOTS then cap else INITIAL_SLOTS)
      && first <= buffer.Length && count <= enqueued
      && (buffer.Length < cap ==> copied + first <= buffer.Length)
      && (copied == 0 || copied < 2 * enqueued)
    }

    ghost predicate Valid()
      reads this, buffer
    {
      Shape() && Cells() && Paid()
    }

    constructor (capacity: nat)
      requires capacity <= INT64_MAX
      ensures Valid() && cap == capacity && contents == [] && enqueued == copied == 0
      ensures fresh(buffer)
      ensures buffer.Length == if capacity < 16 then capacity else 16
      ensures forall p :: 0 <= p < buffer.Length ==> buffer[p] == 0
    {
      cap := capacity;
      var n := if capacity < INITIAL_SLOTS then capacity else INITIAL_SLOTS;
      var block := new int[n](_ => 0);
      buffer, scanned, count, head, tail := block, block, 0, 0, 0;
      contents, enqueued, copied, first := [], 0, 0, n;
    }

    // A full ring below its bound doubles, or goes to its bound; no value moves in the FIFO.
    method Grow()
      requires Valid() && 1 <= buffer.Length < cap && count == buffer.Length
      modifies this
      ensures Valid() && fresh(buffer)
      ensures contents == old(contents) && enqueued == old(enqueued)
      ensures buffer.Length == Want(old(buffer.Length), cap)
      ensures copied == old(copied) + old(buffer.Length)
    {
      var want := Want(buffer.Length, cap);
      var ring := new int[want](_ => 0);
      for i := 0 to count
        modifies ring
        invariant forall p :: 0 <= p < i ==> ring[p] == contents[p]
        invariant forall p :: i <= p < want ==> ring[p] == 0
      {
        AtMod(head, i, buffer.Length);
        ring[i] := buffer[(head + i) % buffer.Length];
      }
      copied := copied + count;
      buffer, scanned, head, tail := ring, ring, 0, count;
      assert forall p :: 0 <= p < want ==> At(0, p, want) == p;
    }

    // Puts a value at the tail of a ring with a free slot.
    method Put(value: int)
      requires Valid() && count < buffer.Length
      modifies this, buffer
      ensures Valid() && buffer == old(buffer)
      ensures contents == old(contents) + [value]
      ensures enqueued == old(enqueued) + 1 && copied == old(copied)
    {
      forall p | 0 <= p < buffer.Length && p != count
        ensures At(head, p, buffer.Length) != tail
      {
      }
      AtMod(tail, 1, buffer.Length);
      buffer[tail] := value;
      tail := (tail + 1) % buffer.Length;
      count := count + 1;
      contents := contents + [value];
      enqueued := enqueued + 1;
    }

    // The buffered path of a send, below the bound.
    method Enqueue(value: int)
      requires Valid() && count < cap
      modifies this, buffer
      ensures Valid() && (buffer == old(buffer) || fresh(buffer))
      ensures contents == old(contents) + [value]
      ensures enqueued == old(enqueued) + 1
      ensures buffer != old(buffer) <==> old(count) == old(buffer.Length)
    {
      if count == buffer.Length {
        Grow();
      }
      Put(value);
    }

    // Takes the oldest value and clears its slot.
    method Dequeue() returns (value: int)
      requires Valid() && count > 0
      modifies this, buffer
      ensures Valid() && buffer == old(buffer)
      ensures [value] + contents == old(contents)
      ensures enqueued == old(enqueued) && copied == old(copied)
    {
      var n := buffer.Length;
      value := buffer[head];
      AtMod(head, 1, n);
      ghost var h, c, cells := head, contents, buffer[..];
      buffer[head] := 0;
      head := (head + 1) % n;
      count := count - 1;
      contents := contents[1..];
      forall p | 0 <= p < n
        ensures buffer[At(head, p, n)] == if p < count then contents[p] else 0
      {
        assert At(head, p, n) == At(h, p + 1, n);
        assert cells[At(h, p + 1, n)] == buffer[At(h, p + 1, n)] || p + 1 == n;
      }
    }

    // The buffered path of a receive: the oldest value out, and a parked sender's value, if
    // there is one, into the slot it left.
    method Take(sender: seq<int>) returns (value: int)
      requires Valid() && count > 0 && |sender| <= 1
      modifies this, buffer
      ensures Valid() && buffer == old(buffer)
      ensures [value] + contents == old(contents) + sender
    {
      value := Dequeue();
      if sender != [] {
        Put(sender[0]);
      }
    }

    // Over its whole life a ring moves fewer than two values for each one put in.
    lemma CopyBound()
      requires Valid() && enqueued > 0
      ensures copied < 2 * enqueued
    {
    }
  }
}
