// Insertion sort over blocks, then bottom-up merge passes between two buffers: the result is
// the one sorted arrangement of the input that keeps equal keys in their order.
module MergeSort {

  const BLOCK: nat := 16

  // Only keys are compared; the tag tells apart elements of one key.
  datatype Item = Item(key: int, tag: int)

  predicate Sorted(s: seq<Item>) {
    forall i, j :: 0 <= i < j < |s| ==> s[i].key <= s[j].key
  }

  // The elements of key k, in order.
  function Filter(s: seq<Item>, k: int): (r: seq<Item>)
    ensures forall x :: x in r ==> x in s && x.key == k
  {
    if s == [] then [] else (if s[0].key == k then [s[0]] else []) + Filter(s[1..], k)
  }

  // A rearrangement that keeps the order of equal keys.
  ghost predicate Same(s: seq<Item>, t: seq<Item>) {
    forall k :: Filter(s, k) == Filter(t, k)
  }

  lemma {:induction false} FilterConcat(s: seq<Item>, t: seq<Item>, k: int)
    ensures Filter(s + t, k) == Filter(s, k) + Filter(t, k)
  {
    if s == [] {
      assert s + t == t;
    } else {
      assert (s + t)[1..] == s[1..] + t;
      FilterConcat(s[1..], t, k);
    }
  }

  lemma {:induction false} FilterNone(s: seq<Item>, k: int)
    requires forall x :: x in s ==> x.key != k
    ensures Filter(s, k) == []
  {
    if s != [] {
      assert s[0] in s;
      FilterNone(s[1..], k);
    }
  }

  lemma SameConcat(s: seq<Item>, s': seq<Item>, t: seq<Item>, t': seq<Item>)
    requires Same(s, s') && Same(t, t')
    ensures Same(s + t, s' + t')
  {
    forall k ensures Filter(s + t, k) == Filter(s' + t', k) {
      FilterConcat(s, t, k);
      FilterConcat(s', t', k);
    }
  }

  // ---- Same is a permutation, and with Sorted it fixes the result ----

  lemma {:induction false} FilterCounts(s: seq<Item>, x: Item)
    ensures multiset(s)[x] == multiset(Filter(s, x.key))[x]
  {
    if s != [] {
      FilterCounts(s[1..], x);
      assert s == [s[0]] + s[1..];
      var first := if s[0].key == x.key then [s[0]] else [];
      assert multiset(first + Filter(s[1..], x.key)) ==
             multiset(first) + multiset(Filter(s[1..], x.key));
    }
  }

  lemma SameIsPermutation(s: seq<Item>, t: seq<Item>)
    requires Same(s, t)
    ensures multiset(s) == multiset(t)
  {
    forall x ensures multiset(s)[x] == multiset(t)[x] {
      FilterCounts(s, x);
      FilterCounts(t, x);
    }
  }

  lemma {:induction false} SortedIsUnique(s: seq<Item>, t: seq<Item>)
    requires Sorted(s) && Sorted(t) && Same(s, t)
    ensures s == t
  {
    hide Filter;
    SameIsPermutation(s, t);
    assert |multiset(s)| == |s| && |multiset(t)| == |t|;
    if s != [] {
      HeadIsLeast(s, t);
      HeadIsLeast(t, s);
      var k := s[0].key;
      FilterTail(s, k);
      FilterTail(t, k);
      assert Filter(s, k)[0] == s[0] && Filter(t, k)[0] == t[0];
      forall m ensures Filter(s[1..], m) == Filter(t[1..], m) {
        FilterTail(s, m);
        FilterTail(t, m);
      }
      SortedIsUnique(s[1..], t[1..]);
    }
  }

  lemma FilterTail(s: seq<Item>, m: int)
    requires s != []
    ensures Filter(s, m) == (if s[0].key == m then [s[0]] else []) + Filter(s[1..], m)
    ensures Filter(s[1..], m) == if s[0].key == m then Filter(s, m)[1..] else Filter(s, m)
  {
  }

  lemma HeadIsLeast(s: seq<Item>, t: seq<Item>)
    requires Sorted(s) && s != [] && t != [] && multiset(s) == multiset(t)
    ensures s[0].key <= t[0].key
  {
    assert t[0] in multiset(t);
    assert t[0] in s;
  }

  // ---- Insertion sort of one block ----

  // An element moves past others of other keys.
  lemma Passes(x: Item, l: seq<Item>)
    requires forall y :: y in l ==> y.key != x.key
    ensures Same([x] + l, l + [x])
  {
    forall k ensures Filter([x] + l, k) == Filter(l + [x], k) {
      FilterConcat([x], l, k);
      FilterConcat(l, [x], k);
      if k == x.key {
        FilterNone(l, k);
      } else {
        FilterNone([x], k);
      }
    }
  }

  lemma PassesWithin(out: seq<Item>, x: Item, l: seq<Item>, r: seq<Item>)
    requires forall y :: y in l ==> y.key != x.key
    ensures Same(out + [x] + l + r, out + l + [x] + r)
  {
    hide Same;
    Passes(x, l);
    Itself(out);
    Itself(r);
    SameConcat(out, out, [x] + l, l + [x]);
    SameConcat(out + ([x] + l), out + (l + [x]), r, r);
    assert out + ([x] + l) + r == out + [x] + l + r;
    assert out + (l + [x]) + r == out + l + [x] + r;
  }

  lemma Itself(s: seq<Item>)
    ensures Same(s, s)
  {
  }

  lemma Through(s: seq<Item>, t: seq<Item>, u: seq<Item>)
    requires Same(s, t) && Same(t, u)
    ensures Same(s, u)
  {
    forall k ensures Filter(s, k) == Filter(u, k) {
      assert Filter(s, k) == Filter(t, k);
    }
  }

  // x goes in after everything that is not larger.
  lemma InsertOne(s: seq<Item>, x: Item, p: nat)
    requires Sorted(s) && p <= |s|
    requires forall i :: 0 <= i < p ==> s[i].key <= x.key
    requires forall i :: p <= i < |s| ==> x.key < s[i].key
    ensures Sorted(s[..p] + [x] + s[p..]) && Same(s[..p] + [x] + s[p..], s + [x])
  {
    hide Same;
    PassesWithin(s[..p], x, s[p..], []);
    assert s[..p] + [x] + s[p..] + [] == s[..p] + [x] + s[p..];
    assert s[..p] + s[p..] + [x] + [] == s + [x];
  }

  lemma Alone(s: seq<Item>)
    requires |s| <= 1
    ensures Sorted(s) && Same(s, s)
  {
  }

  lemma Tail(p: seq<Item>, q: seq<Item>, i: nat)
    requires i < |p| == |q| && p[i..] == q[i..]
    ensures p[i] == q[i] && p[i + 1..] == q[i + 1..]
  {
    assert p[i] == p[i..][0] && p[i + 1..] == p[i..][1..];
  }

  lemma Grown(u: seq<Item>, s: seq<Item>, t: seq<Item>, x: Item)
    requires Same(u, s + [x]) && Same(s, t)
    ensures Same(u, t + [x])
  {
    SameConcat(s, t, [x], [x]);
  }

  method Insertion(a: array<Item>, lo: nat, hi: nat)
    requires lo <= hi <= a.Length
    modifies a
    ensures Sorted(a[lo..hi]) && Same(a[lo..hi], old(a[lo..hi]))
    ensures a[..lo] == old(a[..lo]) && a[hi..] == old(a[hi..])
  {
    hide Same, Sorted;
    if lo == hi {
      Alone(a[lo..hi]);
      return;
    }
    var i := lo + 1;
    Alone(a[lo..i]);
    while i < hi
      invariant lo < i <= hi
      invariant Sorted(a[lo..i]) && Same(a[lo..i], old(a[lo..i]))
      invariant a[..lo] == old(a[..lo]) && a[i..] == old(a[i..])
    {
      ghost var was := a[..];
      assert was[i..] == old(a[..])[i..];
      Tail(was, old(a[..]), i);
      InsertAt(a, lo, i);
      ghost var x := was[i];
      Grown(a[lo..i + 1], was[lo..i], old(a[lo..i]), x);
      assert old(a[lo..i]) + [x] == old(a[lo..i + 1]);
      i := i + 1;
    }
  }

  lemma NoneAbove(s: seq<Item>, p: nat, x: Item)
    requires Sorted(s) && 0 < p <= |s| && s[p - 1].key <= x.key
    ensures forall i :: 0 <= i < p ==> s[i].key <= x.key
  {
  }

  // Slices of slices.
  lemma Slice(q: seq<Item>, lo: nat, mid: nat, hi: nat)
    requires lo <= mid <= hi <= |q|
    ensures q[lo..hi][..mid - lo] == q[lo..mid] && q[lo..hi][mid - lo..] == q[mid..hi]
    ensures q[lo..][..mid - lo] == q[lo..mid] && q[lo..][mid - lo..hi - lo] == q[mid..hi]
    ensures q[lo..][hi - lo..] == q[hi..] && q[..lo] + q[lo..hi] == q[..hi]
  {
  }

  // x between the elements of a sorted run that are no larger and those that are larger.
  lemma Inserted(low: seq<Item>, x: Item, high: seq<Item>)
    requires Sorted(low + high)
    requires low != [] ==> low[|low| - 1].key <= x.key
    requires forall k :: 0 <= k < |high| ==> x.key < high[k].key
    ensures Sorted(low + [x] + high) && Same(low + [x] + high, low + high + [x])
  {
    hide Same, Sorted;
    var s, p := low + high, |low|;
    assert s[..p] == low && s[p..] == high;
    if p > 0 {
      NoneAbove(s, p, x);
    }
    InsertOne(s, x, p);
  }

  lemma Split(q: seq<Item>, lo: nat, mid: nat, hi: nat)
    requires lo <= mid <= hi <= |q|
    ensures q[lo..hi] == q[lo..mid] + q[mid..hi]
    ensures mid < hi ==> q[lo..hi] == q[lo..mid] + [q[mid]] + q[mid + 1..hi]
  {
  }

  // Stores a[i] into the sorted run a[lo..i], below the elements that are larger.
  method InsertAt(a: array<Item>, lo: nat, i: nat)
    requires lo < i < a.Length && Sorted(a[lo..i])
    modifies a
    ensures Sorted(a[lo..i + 1]) && Same(a[lo..i + 1], old(a[lo..i]) + [old(a[i])])
    ensures a[..lo] == old(a[..lo]) && a[i + 1..] == old(a[i + 1..])
  {
    hide Same, Sorted, Slid;
    ghost var was := a[..];
    var x := a[i];
    var j := ShiftUp(a, lo, i, x);
    SlidParts(was, lo, j, i);
    a[j] := x;
    ghost var low, high := was[lo..j], was[j..i];
    Split(was, lo, j, i);
    Split(a[..], lo, j, i + 1);
    Inserted(low, x, high);
  }

  // Shifts the elements of the run that are larger than x up by one, leaving a hole at j.
  method ShiftUp(a: array<Item>, lo: nat, i: nat, x: Item) returns (j: nat)
    requires lo < i < a.Length
    modifies a
    ensures lo <= j <= i && a[..] == Slid(old(a[..]), j, i)
    ensures j > lo ==> old(a[j - 1]).key <= x.key
    ensures forall k :: j <= k < i ==> x.key < old(a[k]).key
  {
    hide Slid;
    ghost var was := a[..];
    j := i;
    SlidNone(was, i);
    while j > lo && x.key < a[j - 1].key
      invariant lo <= j <= i && a[..] == Slid(was, j, i)
      invariant forall k :: j <= k < i ==> x.key < was[k].key
    {
      SlideOne(was, j, i);
      a[j] := a[j - 1];
      j := j - 1;
    }
  }

  // was with the elements from j below i moved up by one.
  ghost function Slid(was: seq<Item>, j: nat, i: nat): (r: seq<Item>)
    requires j <= i < |was|
    ensures |r| == |was| && (j > 0 ==> r[j - 1] == was[j - 1])
  {
    was[..j + 1] + was[j..i] + was[i + 1..]
  }

  lemma SlidNone(was: seq<Item>, i: nat)
    requires i < |was|
    ensures Slid(was, i, i) == was
  {
  }

  lemma SlideOne(was: seq<Item>, j: nat, i: nat)
    requires 0 < j <= i < |was|
    ensures Slid(was, j - 1, i) == Slid(was, j, i)[j := was[j - 1]]
  {
  }

  lemma SlidParts(was: seq<Item>, lo: nat, j: nat, i: nat)
    requires lo <= j <= i < |was|
    ensures var now := Slid(was, j, i);
      && |now| == |was| && now[lo..j] == was[lo..j] && now[j + 1..i + 1] == was[j..i]
      && now[..lo] == was[..lo] && now[i + 1..] == was[i + 1..]
  {
  }

  // ---- Merging two runs ----

  // Where a merge stands: out is done, l and r are what is left of the two runs.
  ghost predicate Merging(out: seq<Item>, l: seq<Item>, r: seq<Item>, all: seq<Item>) {
    && Sorted(out) && Sorted(l) && Sorted(r)
    && (forall x, y :: x in out && (y in l || y in r) ==> x.key <= y.key)
    && Same(out + l + r, all)
  }

  lemma TakeLeft(out: seq<Item>, l: seq<Item>, r: seq<Item>, all: seq<Item>)
    requires Merging(out, l, r, all) && l != []
    requires r != [] ==> l[0].key <= r[0].key
    ensures Merging(out + [l[0]], l[1..], r, all)
  {
    hide Same;
    assert out + [l[0]] + l[1..] == out + l by {
      assert l == [l[0]] + l[1..];
    }
    Members(l);
    Members(r);
    assert forall x :: x in out + [l[0]] <==> x in out || x == l[0];
  }

  lemma Members(l: seq<Item>)
    requires Sorted(l)
    ensures l != [] ==> l[0] in l && forall y :: y in l ==> l[0].key <= y.key
    ensures l != [] ==> Sorted(l[1..]) && forall y :: y in l[1..] ==> y in l
  {
  }

  lemma TakeRight(out: seq<Item>, l: seq<Item>, r: seq<Item>, all: seq<Item>)
    requires Merging(out, l, r, all) && r != []
    requires l != [] ==> r[0].key < l[0].key
    ensures Merging(out + [r[0]], l, r[1..], all)
  {
    hide Same;
    Members(l);
    Members(r);
    PassesWithin(out, r[0], l, r[1..]);
    assert out + l + [r[0]] + r[1..] == out + l + r by {
      assert r == [r[0]] + r[1..];
    }
    Through(out + [r[0]] + l + r[1..], out + l + r, all);
    assert forall x :: x in out + [r[0]] <==> x in out || x == r[0];
  }

  lemma MergedAll(out: seq<Item>, all: seq<Item>)
    requires Merging(out, [], [], all)
    ensures Sorted(out) && Same(out, all)
  {
    assert out + [] + [] == out;
  }

  // dst[lo..k] is merged, src[i..mid] and src[j..hi] are left, and nothing else moved.
  ghost predicate At(src: array<Item>, dst: array<Item>, lo: nat, mid: nat, hi: nat, i: nat, j: nat,
                     k: nat, all: seq<Item>)
    reads src, dst
  {
    && lo <= i <= mid <= j <= hi <= src.Length == dst.Length && k == i + j - mid
    && Merging(dst[lo..k], src[i..mid], src[j..hi], all)
  }

  method TakeOne(src: array<Item>, dst: array<Item>, lo: nat, mid: nat, hi: nat, i: nat, j: nat,
                 k: nat, right: bool, ghost all: seq<Item>)
    requires src != dst && At(src, dst, lo, mid, hi, i, j, k, all)
    requires if right then j < hi && (i < mid ==> src[j].key < src[i].key)
             else i < mid && (j < hi ==> src[i].key <= src[j].key)
    modifies dst
    ensures At(src, dst, lo, mid, hi, if right then i else i + 1, if right then j + 1 else j, k + 1,
               all)
    ensures dst[..lo] == old(dst[..lo]) && dst[hi..] == old(dst[hi..])
  {
    hide Merging;
    ghost var out, l, r := dst[lo..k], src[i..mid], src[j..hi];
    if right {
      TakeRight(out, l, r, all);
      dst[k] := src[j];
      assert r[1..] == src[j + 1..hi];
    } else {
      TakeLeft(out, l, r, all);
      dst[k] := src[i];
      assert l[1..] == src[i + 1..mid];
    }
    assert dst[lo..k + 1] == out + [dst[k]];
  }

  lemma Begin(s: seq<Item>, lo: nat, mid: nat, hi: nat)
    requires lo <= mid <= hi <= |s| && Sorted(s[lo..mid]) && Sorted(s[mid..hi])
    ensures Merging([], s[lo..mid], s[mid..hi], s[lo..hi])
  {
    Itself(s[lo..hi]);
    assert [] + s[lo..mid] + s[mid..hi] == s[lo..hi];
  }

  // Takes the smaller head, the left one when they are equal, while both runs have one.
  method MergeHeads(src: array<Item>, dst: array<Item>, lo: nat, mid: nat, hi: nat,
                    ghost all: seq<Item>)
    returns (i: nat, j: nat, k: nat)
    requires src != dst && At(src, dst, lo, mid, hi, lo, mid, lo, all)
    modifies dst
    ensures At(src, dst, lo, mid, hi, i, j, k, all) && (i == mid || j == hi)
    ensures dst[..lo] == old(dst[..lo]) && dst[hi..] == old(dst[hi..])
  {
    hide Merging;
    i, j, k := lo, mid, lo;
    while i < mid && j < hi
      invariant At(src, dst, lo, mid, hi, i, j, k, all)
      invariant dst[..lo] == old(dst[..lo]) && dst[hi..] == old(dst[hi..])
    {
      if src[j].key < src[i].key {
        TakeOne(src, dst, lo, mid, hi, i, j, k, true, all);
        k, j := k + 1, j + 1;
      } else {
        TakeOne(src, dst, lo, mid, hi, i, j, k, false, all);
        k, i := k + 1, i + 1;
      }
    }
  }

  method MergeRest(src: array<Item>, dst: array<Item>, lo: nat, mid: nat, hi: nat,
                   i0: nat, j0: nat, k0: nat, ghost all: seq<Item>)
    requires src != dst && At(src, dst, lo, mid, hi, i0, j0, k0, all) && (i0 == mid || j0 == hi)
    modifies dst
    ensures At(src, dst, lo, mid, hi, mid, hi, hi, all)
    ensures dst[..lo] == old(dst[..lo]) && dst[hi..] == old(dst[hi..])
  {
    hide Merging;
    var i, j, k := i0, j0, k0;
    while i < mid
      invariant At(src, dst, lo, mid, hi, i, j, k, all) && (i == mid || j == hi)
      invariant dst[..lo] == old(dst[..lo]) && dst[hi..] == old(dst[hi..])
    {
      TakeOne(src, dst, lo, mid, hi, i, j, k, false, all);
      k, i := k + 1, i + 1;
    }
    while j < hi
      invariant At(src, dst, lo, mid, hi, i, j, k, all) && i == mid
      invariant dst[..lo] == old(dst[..lo]) && dst[hi..] == old(dst[hi..])
    {
      TakeOne(src, dst, lo, mid, hi, i, j, k, true, all);
      k, j := k + 1, j + 1;
    }
  }

  method Merge(src: array<Item>, dst: array<Item>, lo: nat, mid: nat, hi: nat)
    requires src != dst && lo <= mid <= hi <= src.Length == dst.Length
    requires Sorted(src[lo..mid]) && Sorted(src[mid..hi])
    modifies dst
    ensures Sorted(dst[lo..hi]) && Same(dst[lo..hi], src[lo..hi])
    ensures dst[..lo] == old(dst[..lo]) && dst[hi..] == old(dst[hi..])
  {
    hide Merging, Same, Sorted;
    ghost var all := src[lo..hi];
    Begin(src[..], lo, mid, hi);
    assert dst[lo..lo] == [];
    var i, j, k := MergeHeads(src, dst, lo, mid, hi, all);
    MergeRest(src, dst, lo, mid, hi, i, j, k, all);
    assert src[mid..mid] == [] && src[hi..hi] == [];
    MergedAll(dst[lo..hi], all);
  }

  // ---- Runs ----

  // s is made of sorted runs of w, the last one possibly shorter.
  ghost predicate Runs(s: seq<Item>, w: nat) {
    if w == 0 || |s| <= w then Sorted(s) else Sorted(s[..w]) && Runs(s[w..], w)
  }

  // n is a whole number of runs of w.
  ghost predicate Whole(n: nat, w: nat) {
    n == 0 || (0 < w <= n && Whole(n - w, w))
  }

  lemma {:induction false} RunsSnoc(s: seq<Item>, t: seq<Item>, w: nat)
    requires w > 0 && Runs(s, w) && Whole(|s|, w) && Sorted(t) && |t| <= w
    ensures Runs(s + t, w)
    ensures |t| == w ==> Whole(|s + t|, w)
  {
    if s == [] {
      assert s + t == t;
    } else if |s| == w {
      assert (s + t)[..w] == s && (s + t)[w..] == t;
    } else {
      RunsSnoc(s[w..], t, w);
      assert (s + t)[..w] == s[..w] && (s + t)[w..] == s[w..] + t;
    }
  }

  lemma RunsHead(s: seq<Item>, w: nat)
    requires w > 0 && Runs(s, w)
    ensures var m := if |s| < w then |s| else w;
      var h := if |s| < 2 * w then |s| else 2 * w;
      Sorted(s[..m]) && Sorted(s[m..h]) && Runs(s[h..], w)
  {
    if |s| > w {
      var t := s[w..];
      if |t| > w {
        assert s[w..2 * w] == t[..w] && s[2 * w..] == t[w..];
      } else {
        assert s[w..|s|] == t;
      }
    } else {
      assert s[..|s|] == s;
    }
  }

  function Min(x: nat, y: nat): nat { if x < y then x else y }

  // ---- The sort ----

  method Blocks(a: array<Item>)
    modifies a
    ensures Runs(a[..], 16) && Same(a[..], old(a[..]))
  {
    hide Same, Runs, Sorted, Whole;
    var n := a.Length;
    var lo: nat := 0;
    EmptyRuns(a[..], BLOCK);
    while lo < n
      invariant Runs(a[..Min(lo, n)], BLOCK) && (lo < n ==> Whole(lo, BLOCK))
      invariant Same(a[..Min(lo, n)], old(a[..Min(lo, n)])) && a[Min(lo, n)..] == old(a[Min(lo, n)..])
    {
      var hi := Min(lo + BLOCK, n);
      ghost var done, was := a[..lo], a[..];
      Insertion(a, lo, hi);
      Slice(old(a[..]), lo, lo, hi);
      Slice(was, lo, lo, hi);
      Slice(a[..], lo, lo, hi);
      assert was[lo..] == old(a[lo..]);
      assert old(a[lo..hi]) == was[lo..hi];
      RunsSnoc(done, a[lo..hi], BLOCK);
      SameConcat(done, old(a[..lo]), a[lo..hi], old(a[lo..hi]));
      assert a[hi..] == was[hi..] == old(a[hi..]);
      lo := lo + BLOCK;
    }
    assert a[..n] == a[..] && old(a[..n]) == old(a[..]);
  }

  lemma EmptyRuns(s: seq<Item>, w: nat)
    ensures Runs(s[..0], w) && Whole(0, w) && Same(s[..0], [])
  {
  }

  // One merge pass from src to dst: runs of w become runs of 2w.
  method Pass(src: array<Item>, dst: array<Item>, w: nat)
    requires src != dst && src.Length == dst.Length && w > 0 && Runs(src[..], w)
    modifies dst
    ensures Runs(dst[..], 2 * w) && Same(dst[..], src[..])
  {
    hide Same, Runs, Sorted, Whole;
    var n := src.Length;
    var lo: nat := 0;
    EmptyRuns(dst[..], 2 * w);
    assert src[0..] == src[..];
    while lo < n
      invariant Runs(dst[..Min(lo, n)], 2 * w) && (lo < n ==> Whole(lo, 2 * w))
      invariant Runs(src[Min(lo, n)..], w) && Same(dst[..Min(lo, n)], src[..Min(lo, n)])
    {
      var mid, hi := Min(lo + w, n), Min(lo + 2 * w, n);
      ghost var done, rest := dst[..lo], src[lo..];
      RunsHead(rest, w);
      Slice(src[..], lo, mid, hi);
      Merge(src, dst, lo, mid, hi);
      RunsSnoc(done, dst[lo..hi], 2 * w);
      SameConcat(done, src[..lo], dst[lo..hi], src[lo..hi]);
      Slice(dst[..], lo, lo, hi);
      Slice(src[..], lo, lo, hi);
      lo := lo + 2 * w;
    }
    assert dst[..n] == dst[..] && src[..n] == src[..];
  }

  // The whole sort: a ends sorted and stable, whichever buffer the last pass wrote.
  method Sort(a: array<Item>, scratch: array<Item>)
    requires a != scratch && a.Length == scratch.Length
    modifies a, scratch
    ensures Sorted(a[..]) && Same(a[..], old(a[..]))
    ensures multiset(a[..]) == multiset(old(a[..]))
  {
    hide Same, Runs;
    var n := a.Length;
    Blocks(a);
    if n <= BLOCK {
      OneRun(a[..], BLOCK);
      SameIsPermutation(a[..], old(a[..]));
      return;
    }
    var src, dst, w := a, scratch, BLOCK;
    while w < n
      invariant (src == a && dst == scratch) || (src == scratch && dst == a)
      invariant w > 0 && Runs(src[..], w) && Same(src[..], old(a[..]))
      decreases n - w
    {
      Pass(src, dst, w);
      Through(dst[..], src[..], old(a[..]));
      src, dst := dst, src;
      w := w * 2;
    }
    OneRun(src[..], w);
    if src != a {
      Copy(src, a);
    }
    SameIsPermutation(a[..], old(a[..]));
  }

  lemma OneRun(s: seq<Item>, w: nat)
    requires Runs(s, w) && |s| <= w
    ensures Sorted(s)
  {
  }

  method Copy(src: array<Item>, dst: array<Item>)
    requires src != dst && src.Length == dst.Length
    modifies dst
    ensures dst[..] == src[..]
  {
    for i := 0 to src.Length
      invariant dst[..i] == src[..i]
    {
      dst[i] := src[i];
    }
  }
}
