// The generation-checked handle table: a handle names one record for ever.
module HandleTable {
  import opened Common

  const UINT32_MAX: nat := 0xffff_ffff
  const WORD: nat := 0x1_0000_0000

  datatype Kind = ScopeHandle | TaskHandle | ChanHandle

  datatype Slot<P> = Slot(ptr: Option<P>, gen: nat, nextFree: nat, kind: Kind)

  datatype Found<P> = Live(ptr: P) | Invalid | Stale

  // ---- Packing ----

  // (gen << 32) | idx as an unsigned 64-bit word.
  function Pack(gen: nat, idx: nat): (h: nat)
    requires gen <= UINT32_MAX && idx <= UINT32_MAX
    ensures h == gen * 0x1_0000_0000 + idx
    ensures h < WORD * WORD && Index(h) == idx && Generation(h) == gen
  {
    gen * WORD + idx
  }

  function Index(h: nat): (i: nat)
    ensures i <= UINT32_MAX
  {
    h % WORD
  }

  function Generation(h: nat): (g: nat)
    ensures h < WORD * WORD ==> g <= UINT32_MAX
  {
    h / WORD
  }

  lemma UnpackPack(h: nat)
    requires h < WORD * WORD
    ensures Pack(Generation(h), Index(h)) == h
  {
  }

  // The shifts and masks of the C code are the arithmetic above.
  lemma PackBits(gen: bv64, idx: bv64)
    requires gen <= 0xffff_ffff && idx <= 0xffff_ffff
    ensures (gen << 32) | idx == gen * 0x1_0000_0000 + idx
    ensures ((gen << 32) | idx) & 0xffff_ffff == idx
    ensures ((gen << 32) | idx) >> 32 == gen
  {
  }

  // ---- What the slots say of a handle ----

  // Its generation has been given out; that of a slot on the free list has not yet.
  ghost predicate Given<P>(slots: seq<Slot<P>>, frees: seq<nat>, h: nat) {
    var i := Index(h);
    && h < WORD * WORD && i < |slots| && 1 <= Generation(h)
    && (Generation(h) < slots[i].gen || (Generation(h) == slots[i].gen && i !in frees))
  }

  ghost predicate Resolves<P>(slots: seq<Slot<P>>, h: nat) {
    var i := Index(h);
    h < WORD * WORD && i < |slots| && slots[i].ptr.Some? && slots[i].gen == Generation(h)
  }

  // The link of the i-th slot of the free list.
  function LinkAfter(frees: seq<nat>, i: nat): nat {
    if i + 1 < |frees| then frees[i + 1] else UINT32_MAX
  }

  ghost predicate FreeListOk<P>(slots: seq<Slot<P>>, frees: seq<nat>, free: nat) {
    && NoDup(frees)
    && (forall i :: 0 <= i < |frees| ==> frees[i] < |slots| && slots[frees[i]].ptr == None)
    && free == (if frees == [] then UINT32_MAX else frees[0])
    && (forall i :: 0 <= i < |frees| ==> slots[frees[i]].nextFree == LinkAfter(frees, i))
  }

  ghost predicate TableOk<P>(slots: seq<Slot<P>>, frees: seq<nat>) {
    && |slots| <= UINT32_MAX
    && (forall i :: 0 <= i < |slots| ==> 1 <= slots[i].gen <= UINT32_MAX)
    && (forall i :: 0 <= i < |slots| && slots[i].ptr == None && i !in frees ==>
          slots[i].gen == UINT32_MAX)
    && (forall i :: 0 <= i < |frees| ==> frees[i] < |slots| && slots[frees[i]].ptr == None)
  }

  // Filling slot idx, from the free list or new, gives out one handle and makes it resolve.
  lemma FillsOne<P>(slots: seq<Slot<P>>, frees: seq<nat>, slots': seq<Slot<P>>, frees': seq<nat>,
                    idx: nat, h: nat)
    requires TableOk(slots, frees) && NoDup(frees)
    requires idx < |slots'| <= UINT32_MAX && slots'[idx].ptr.Some?
    requires 1 <= slots'[idx].gen <= UINT32_MAX && h == Pack(slots'[idx].gen, idx)
    requires if frees != [] then
        && idx == frees[0] && frees' == frees[1..] && slots'[idx].gen == slots[idx].gen
        && slots' == slots[idx := slots'[idx]]
      else
        && idx == |slots| && frees' == [] && slots'[idx].gen == 1
        && slots' == slots + [slots'[idx]]
    ensures !Given(slots, frees, h) && h != 0
    ensures forall k: nat :: Given(slots', frees', k) <==> Given(slots, frees, k) || k == h
    ensures forall k: nat :: Resolves(slots', k) <==> Resolves(slots, k) || k == h
    ensures TableOk(slots', frees')
  {
    if frees != [] {
      NoDupTail(frees);
    }
    forall k: nat
      ensures Given(slots', frees', k) <==> Given(slots, frees, k) || k == h
      ensures Resolves(slots', k) <==> Resolves(slots, k) || k == h
    {
      if k < WORD * WORD && Index(k) == idx && Generation(k) == slots'[idx].gen {
        UnpackPack(k);
      }
    }
  }

  // Emptying a slot takes exactly its own handle out; a spent generation is never given again.
  lemma EmptiesOne<P>(slots: seq<Slot<P>>, frees: seq<nat>, slots': seq<Slot<P>>, frees': seq<nat>,
                      h: nat)
    requires TableOk(slots, frees) && Resolves(slots, h)
    requires |slots'| == |slots|
    requires var idx := Index(h);
      && slots' == slots[idx := slots'[idx]] && slots'[idx].ptr == None
      && (if slots[idx].gen == UINT32_MAX then
            slots'[idx].gen == UINT32_MAX && frees' == frees
          else
            slots'[idx].gen == slots[idx].gen + 1 && frees' == [idx] + frees)
    ensures forall k: nat :: Given(slots', frees', k) <==> Given(slots, frees, k)
    ensures forall k: nat :: Resolves(slots', k) <==> Resolves(slots, k) && k != h
    ensures TableOk(slots', frees') && Index(h) !in frees
  {
    var idx := Index(h);
    assert idx !in frees;
    forall k: nat
      ensures Given(slots', frees', k) <==> Given(slots, frees, k)
      ensures Resolves(slots', k) <==> Resolves(slots, k) && k != h
    {
      if k < WORD * WORD && Index(k) == idx && Generation(k) == slots[idx].gen {
        UnpackPack(k);
        UnpackPack(h);
      }
    }
  }

  // The free list without its head, and with a new head.
  lemma ListPops<P>(slots: seq<Slot<P>>, frees: seq<nat>, free: nat, slots': seq<Slot<P>>)
    requires FreeListOk(slots, frees, free) && frees != [] && |slots'| == |slots| <= UINT32_MAX
    requires slots' == slots[frees[0] := slots'[frees[0]]]
    ensures FreeListOk(slots', frees[1..], slots[frees[0]].nextFree)
  {
    NoDupTail(frees);
    var q := frees[1..];
    assert slots[frees[0]].nextFree == LinkAfter(frees, 0);
    forall i | 0 <= i < |q|
      ensures q[i] < |slots'| && slots'[q[i]].ptr == None
      ensures slots'[q[i]].nextFree == LinkAfter(q, i)
    {
      var j := i + 1;
      assert q[i] in q && q[i] == frees[j];
      assert slots[frees[j]].nextFree == LinkAfter(frees, j);
      assert slots'[q[i]] == slots[frees[j]];
    }
  }

  lemma ListPushes<P>(slots: seq<Slot<P>>, frees: seq<nat>, free: nat, slots': seq<Slot<P>>,
                      idx: nat)
    requires FreeListOk(slots, frees, free) && idx !in frees && idx < |slots| == |slots'|
    requires slots' == slots[idx := slots'[idx]]
    requires slots'[idx].ptr == None && slots'[idx].nextFree == free
    ensures FreeListOk(slots', [idx] + frees, idx)
  {
    NoDupSnoc(frees, idx);
    var q := [idx] + frees;
    forall i | 0 <= i < |q|
      ensures q[i] < |slots'| && slots'[q[i]].ptr == None
      ensures slots'[q[i]].nextFree == LinkAfter(q, i)
    {
      if i > 0 {
        var j := i - 1;
        assert q[i] == frees[j] && frees[j] in frees;
        assert slots[frees[j]].nextFree == LinkAfter(frees, j);
        assert slots'[q[i]] == slots[frees[j]];
      }
    }
  }

  lemma ListKept<P>(slots: seq<Slot<P>>, frees: seq<nat>, free: nat, slots': seq<Slot<P>>)
    requires FreeListOk(slots, frees, free)
    requires forall i :: i in frees && i < |slots| ==> i < |slots'| && slots'[i] == slots[i]
    ensures FreeListOk(slots', frees, free)
  {
  }

  // ---- The table ----

  class Table<P(==)> {
    var slots: seq<Slot<P>>
    var free: nat                          // head of the free list, UINT32_MAX when empty

    ghost var frees: seq<nat>              // the free list, in order
    ghost var live: map<nat, (Kind, P)>    // the records whose handles resolve
    ghost var issued: set<nat>             // every handle given out so far

    ghost predicate Valid()
      reads this
    {
      && TableOk(slots, frees) && FreeListOk(slots, frees, free)
      && (forall h: nat :: h in issued <==> Given(slots, frees, h))
      && (forall h: nat :: h in live <==> Resolves(slots, h))
      && (forall h: nat :: h in live ==>
            live[h] == (slots[Index(h)].kind, slots[Index(h)].ptr.value))
    }

    constructor ()
      ensures Valid() && live == map[] && issued == {}
    {
      slots, free, frees, live, issued := [], UINT32_MAX, [], map[], {};
    }

    // A new handle: never 0, never given out before. None is the out-of-handles abort, which
    // needs all 2^32 - 1 slots in use or retired.
    method Alloc(kind: Kind, ptr: P) returns (handle: Option<nat>)
      requires Valid()
      modifies this
      ensures Valid()
      ensures handle == None <==> old(frees) == [] && |old(slots)| == 0xffff_ffff
      ensures handle == None ==> live == old(live) && issued == old(issued)
      ensures handle.Some? ==>
        && handle.value != 0 && handle.value !in old(issued)
        && issued == old(issued) + {handle.value}
        && live == old(live)[handle.value := (kind, ptr)]
    {
      hide Given, Resolves, FreeListOk, TableOk;
      handle := FillSlot(kind, ptr);
      if handle.Some? {
        issued := issued + {handle.value};
        live := live[handle.value := (kind, ptr)];
      }
    }

    // The slot work of an allocation: one handle more is given out, and resolves.
    method FillSlot(kind: Kind, ptr: P) returns (handle: Option<nat>)
      requires TableOk(slots, frees) && FreeListOk(slots, frees, free)
      modifies this`slots, this`free, this`frees
      ensures TableOk(slots, frees) && FreeListOk(slots, frees, free)
      ensures handle == None <==> old(frees) == [] && |old(slots)| == 0xffff_ffff
      ensures handle == None ==> slots == old(slots) && frees == old(frees)
      ensures handle.Some? ==>
        var h := handle.value;
        && h != 0 && !Given(old(slots), old(frees), h)
        && (forall k: nat :: Given(slots, frees, k) <==> Given(old(slots), old(frees), k) || k == h)
        && (forall k: nat :: Resolves(slots, k) <==> Resolves(old(slots), k) || k == h)
        && Index(h) < |slots| && slots[Index(h)].ptr == Some(ptr) && slots[Index(h)].kind == kind
        && (forall k: nat :: Resolves(old(slots), k) ==>
              Index(k) < |slots| && Index(k) < |old(slots)| && slots[Index(k)] == old(slots)[Index(k)])
    {
      hide Given, FreeListOk;
      FreeHead(slots, frees, free);
      ghost var before, waiting, head := slots, frees, free;
      var idx;
      if free != UINT32_MAX {
        idx := free;
        free := slots[idx].nextFree;
        frees := frees[1..];
        slots := slots[idx := slots[idx].(ptr := Some(ptr), kind := kind)];
        ListPops(before, waiting, head, slots);
      } else {
        if |slots| >= UINT32_MAX { return None; }
        idx := |slots|;
        slots := slots + [Slot(Some(ptr), 1, 0, kind)];
        ListKept(before, waiting, head, slots);
      }
      var h := Pack(slots[idx].gen, idx);
      hide Resolves;
      FillsOne(before, waiting, slots, frees, idx, h);
      forall k: nat | Resolves(before, k)
        ensures Index(k) < |slots| && Index(k) < |before| && slots[Index(k)] == before[Index(k)]
      {
        OldRecord(before, slots, idx, k);
      }
      return Some(h);
    }

    // A record that is not the one filled in keeps its slot.
    static lemma OldRecord(before: seq<Slot<P>>, slots: seq<Slot<P>>, idx: nat, k: nat)
      requires idx < |slots| && (if idx < |before| then slots == before[idx := slots[idx]]
                                 else slots == before + [slots[idx]])
      requires idx < |before| ==> before[idx].ptr == None
      requires Resolves(before, k)
      ensures Index(k) < |before| && slots[Index(k)] == before[Index(k)]
    {
    }

    static lemma FreeHead(slots: seq<Slot<P>>, frees: seq<nat>, free: nat)
      requires TableOk(slots, frees) && FreeListOk(slots, frees, free)
      ensures NoDup(frees) && (free != UINT32_MAX <==> frees != [])
      ensures frees != [] ==> free == frees[0] < |slots| && slots[free].ptr == None
    {
    }

    // The record's handle is stale from here on; no other handle is.
    method Release(handle: nat)
      requires Valid() && handle in live
      modifies this
      ensures Valid() && issued == old(issued)
      ensures live == old(live) - {handle}
    {
      hide Given, Resolves, FreeListOk, TableOk;
      EmptySlot(handle);
      live := live - {handle};
    }

    // The slot work of a release.
    method EmptySlot(handle: nat)
      requires TableOk(slots, frees) && FreeListOk(slots, frees, free) && Resolves(slots, handle)
      modifies this`slots, this`free, this`frees
      ensures TableOk(slots, frees) && FreeListOk(slots, frees, free) && |slots| == |old(slots)|
      ensures forall k: nat :: Given(slots, frees, k) <==> Given(old(slots), old(frees), k)
      ensures forall k: nat :: Resolves(slots, k) <==> Resolves(old(slots), k) && k != handle
      ensures forall k: nat :: Resolves(slots, k) ==>
                Index(k) < |slots| && slots[Index(k)] == old(slots)[Index(k)]
    {
      ghost var before, waiting, head := slots, frees, free;
      var idx := Index(handle);
      NotWaiting(slots, frees, handle);
      hide Given, Resolves, FreeListOk;
      slots := slots[idx := slots[idx].(ptr := None)];
      if slots[idx].gen != UINT32_MAX {
        slots := slots[idx := slots[idx].(gen := slots[idx].gen + 1, nextFree := free)];
        frees := [idx] + frees;
        free := idx;
        ListPushes(before, waiting, head, slots, idx);
      } else {
        ListKept(before, waiting, head, slots);
      }
      EmptiesOne(before, waiting, slots, frees, handle);
      forall k: nat | Resolves(slots, k)
        ensures Index(k) < |slots| && slots[Index(k)] == before[Index(k)]
      {
        Apart(before, handle, k);
      }
    }

    static lemma NotWaiting(slots: seq<Slot<P>>, frees: seq<nat>, handle: nat)
      requires TableOk(slots, frees) && Resolves(slots, handle)
      ensures Index(handle) < |slots| && Index(handle) !in frees
    {
    }

    // Two handles that resolve have different slots.
    static lemma Apart(slots: seq<Slot<P>>, h: nat, k: nat)
      requires Resolves(slots, h) && Resolves(slots, k) && h != k
      ensures Index(k) < |slots| && Index(k) != Index(h)
    {
      UnpackPack(h);
      UnpackPack(k);
    }

    // A lookup succeeds exactly for a live handle asked for with its own kind, and then gives
    // the record the handle was issued for.
    method Lookup(handle: nat, kind: Kind) returns (r: Found<P>)
      requires Valid() && handle < WORD * WORD
      ensures r.Live? <==> handle in live && live[handle].0 == kind
      ensures r.Live? ==> r.ptr == live[handle].1
      ensures handle !in issued ==> !r.Live?
      ensures handle == 0 ==> r.Invalid?
    {
      var idx, gen := Index(handle), Generation(handle);
      assert handle in live <==> Resolves(slots, handle);
      assert handle in issued <==> Given(slots, frees, handle);
      if idx >= |slots| || gen == 0 || slots[idx].kind != kind { return Invalid; }
      if slots[idx].gen != gen || slots[idx].ptr == None { return Stale; }
      return Live(slots[idx].ptr.value);
    }
  }

  // ---- Every history of the table ----

  datatype Call<P> = Allocate(kind: Kind, ptr: P) | Free(which: nat)

  // Whether a handle of the client's is still live, by asking for each kind.
  method Known<P(==)>(table: Table<P>, handle: nat) returns (known: bool)
    requires table.Valid() && handle in table.issued
    ensures known <==> handle in table.live
  {
    assert Given(table.slots, table.frees, handle);
    var asScope := table.Lookup(handle, ScopeHandle);
    var asTask := table.Lookup(handle, TaskHandle);
    var asChan := table.Lookup(handle, ChanHandle);
    known := asScope.Live? || asTask.Live? || asChan.Live?;
  }

  // A client that calls Alloc and Release in any order it likes: the handles it is given are
  // pairwise distinct and not 0, and the live ones are exactly those not yet released.
  method Client<P(==)>(table: Table<P>, calls: seq<Call<P>>)
    returns (handles: seq<nat>, ghost released: set<nat>)
    requires table.Valid() && table.live == map[] && table.issued == {}
    modifies table
    ensures table.Valid()
    ensures NoDup(handles) && 0 !in handles
    ensures forall h: nat :: h in table.issued <==> h in handles
    ensures forall h: nat :: h in table.live <==> h in handles && h !in released
  {
    handles, released := [], {};
    for n := 0 to |calls|
      invariant table.Valid()
      invariant NoDup(handles) && 0 !in handles
      invariant forall h: nat :: h in table.issued <==> h in handles
      invariant forall h: nat :: h in table.live <==> h in handles && h !in released
      invariant forall h: nat :: h in released ==> h in handles
    {
      match calls[n]
      case Allocate(kind, ptr) =>
        var h := table.Alloc(kind, ptr);
        if h.Some? {
          NoDupSnoc(handles, h.value);
          handles := handles + [h.value];
        }
      case Free(which) =>
        if which < |handles| {
          var found := Known(table, handles[which]);
          if found {
            table.Release(handles[which]);
            released := released + {handles[which]};
          }
        }
    }
  }
}
