// A* over a square grid of any width, any walls and any goal: the answer is the length of a
// shortest path, or -1 exactly when there is none.
module AStar {

  datatype Cell = Cell(x: int, y: int)
  datatype Entry = Entry(f: int, g: int, x: int, y: int)

  const START := Cell(0, 0)

  // ---- The open set, sorted by f ----

  predicate Sorted(s: seq<Entry>) {
    forall i, j :: 0 <= i < j < |s| ==> s[i].f <= s[j].f
  }

  // i is the place for priority f: after everything that is no larger.
  predicate UpperBound(s: seq<Entry>, f: int, i: nat) {
    && i <= |s|
    && (forall j :: 0 <= j < i ==> s[j].f <= f)
    && (i < |s| ==> s[i].f > f)
  }

  // In a sorted list there is only one such place.
  lemma UpperBoundUnique(s: seq<Entry>, f: int, i: nat, j: nat)
    requires Sorted(s) && UpperBound(s, f, i) && UpperBound(s, f, j)
    ensures i == j
  {
  }

  lemma InsertSorted(s: seq<Entry>, e: Entry, i: nat)
    requires Sorted(s) && UpperBound(s, e.f, i)
    ensures Sorted(s[..i] + [e] + s[i..])
    ensures forall x :: x in s[..i] + [e] + s[i..] <==> x == e || x in s
  {
    assert s == s[..i] + s[i..];
  }

  class OpenSet {
    var s: seq<Entry>

    constructor (e: Entry)
      ensures s == [e]
    {
      s := [e];
    }

    method Pop() returns (e: Entry)
      requires s != []
      modifies this
      ensures [e] + s == old(s)
    {
      e := s[0];
      s := s[1..];
    }

    // The linear scan: extend by one, find the place, shift the tail right, store.
    method Insert(e: Entry) returns (ghost at: nat)
      modifies this
      ensures UpperBound(old(s), e.f, at)
      ensures s == old(s)[..at] + [e] + old(s)[at..]
    {
      s := s + [Entry(0, 0, 0, 0)];
      var i := 0;
      while i < |s| - 1 && s[i].f <= e.f
        invariant i <= |old(s)| && s == old(s) + [Entry(0, 0, 0, 0)]
        invariant forall j :: 0 <= j < i ==> old(s)[j].f <= e.f
      {
        i := i + 1;
      }
      s := s[..i + 1] + s[i..|s| - 1];
      s := s[i := e];
      at := i;
    }

    // The binary search of the JavaScript version.
    method InsertBinary(e: Entry) returns (ghost at: nat)
      requires Sorted(s)
      modifies this
      ensures UpperBound(old(s), e.f, at)
      ensures s == old(s)[..at] + [e] + old(s)[at..]
    {
      var lo, hi := 0, |s|;
      while lo < hi
        invariant lo <= hi <= |s| && s == old(s)
        invariant forall j :: 0 <= j < lo ==> s[j].f <= e.f
        invariant forall j :: hi <= j < |s| ==> s[j].f > e.f
      {
        var mid := (lo + hi) / 2;
        if s[mid].f <= e.f {
          lo := mid + 1;
        } else {
          hi := mid;
        }
      }
      at := lo;
      s := s[..lo] + [e] + s[lo..];
    }
  }

  // On a sorted open set the two insertions leave the same list.
  method InsertionsAgree(a: OpenSet, b: OpenSet, e: Entry)
    requires a != b && a.s == b.s && Sorted(a.s)
    modifies a, b
    ensures a.s == b.s && Sorted(a.s)
  {
    ghost var s := a.s;
    ghost var i := a.Insert(e);
    ghost var j := b.InsertBinary(e);
    UpperBoundUnique(s, e.f, i, j);
    InsertSorted(s, e, i);
  }

  // ---- Mazes and paths ----

  // The grid is w cells wide and high; inf stands for no score.
  datatype Maze = Maze(w: nat, wall: (int, int) -> bool, goal: Cell, inf: int)

  predicate InGrid(m: Maze, c: Cell) {
    0 <= c.x < m.w && 0 <= c.y < m.w
  }

  predicate Free(m: Maze, c: Cell) {
    InGrid(m, c) && !m.wall(c.x, c.y)
  }

  // The cell in direction k: up, down, left, right.
  function Neighbor(c: Cell, k: nat): Cell {
    match k
    case 0 => Cell(c.x, c.y - 1)
    case 1 => Cell(c.x, c.y + 1)
    case 2 => Cell(c.x - 1, c.y)
    case _ => Cell(c.x + 1, c.y)
  }

  ghost predicate Adjacent(a: Cell, b: Cell) {
    Abs(a.x - b.x) + Abs(a.y - b.y) == 1
  }

  lemma AdjacentNeighbor(a: Cell, b: Cell)
    ensures Adjacent(a, b) <==> exists k :: 0 <= k < 4 && b == Neighbor(a, k)
  {
    assert forall k :: 0 <= k < 4 ==> Adjacent(a, Neighbor(a, k));
    if Adjacent(a, b) {
      assert b == Neighbor(a, 0) || b == Neighbor(a, 1) || b == Neighbor(a, 2) || b == Neighbor(a, 3);
    }
  }

  // A walk from the start to c over free cells; the start itself may be anything.
  ghost predicate Path(m: Maze, p: seq<Cell>, c: Cell) {
    && |p| > 0 && p[0] == START && p[|p| - 1] == c
    && forall i, j :: 0 <= i < j < |p| && j == i + 1 ==> Adjacent(p[i], p[j]) && Free(m, p[j])
  }

  ghost predicate Reach(m: Maze, c: Cell, n: int) {
    exists p :: Path(m, p, c) && |p| - 1 == n
  }

  // n is the length of a shortest path to c.
  ghost predicate Dist(m: Maze, c: Cell, n: int) {
    Reach(m, c, n) && forall p :: Path(m, p, c) ==> n <= |p| - 1
  }

  lemma PathStep(m: Maze, c: Cell, n: int, d: Cell)
    requires Reach(m, c, n) && Adjacent(c, d) && Free(m, d)
    ensures Reach(m, d, n + 1)
  {
    var p :| Path(m, p, c) && |p| - 1 == n;
    var q := p + [d];
    forall i, j | 0 <= i < j < |q| && j == i + 1
      ensures Adjacent(q[i], q[j]) && Free(m, q[j])
    {
      assert q[i] == p[i] && (j < |p| ==> q[j] == p[j]);
    }
    assert Path(m, q, d);
  }

  function Abs(n: int): nat { if n < 0 then -n else n }

  function Heur(m: Maze, c: Cell): (h: nat) {
    Abs(m.goal.x - c.x) + Abs(m.goal.y - c.y)
  }

  // The heuristic falls by at most one a step, so it never overestimates.
  lemma {:induction false} HeurPath(m: Maze, p: seq<Cell>, c: Cell, k: nat)
    requires Path(m, p, c) && k < |p|
    ensures Heur(m, p[k]) <= |p| - 1 - k + Heur(m, c)
    decreases |p| - k
  {
    if k < |p| - 1 {
      HeurPath(m, p, c, k + 1);
      assert Adjacent(p[k], p[k + 1]);
    }
  }

  // Where there are no walls it is exactly the number of steps that are left.
  lemma {:induction false} HeurTight(m: Maze, c: Cell, n: int)
    requires InGrid(m, m.goal) && InGrid(m, c) && Reach(m, c, n)
    requires forall d :: InGrid(m, d) ==> Free(m, d)
    ensures Reach(m, m.goal, n + Heur(m, c))
    decreases Heur(m, c)
  {
    if c != m.goal {
      var d := if c.x < m.goal.x then Cell(c.x + 1, c.y)
               else if c.x > m.goal.x then Cell(c.x - 1, c.y)
               else if c.y < m.goal.y then Cell(c.x, c.y + 1)
               else Cell(c.x, c.y - 1);
      assert InGrid(m, d);
      PathStep(m, c, n, d);
      hide Reach;
      HeurTight(m, d, n + 1);
    }
  }

  // ---- The flat arrays ----

  function Idx(m: Maze, c: Cell): int {
    c.y * m.w + c.x
  }

  lemma IdxBound(m: Maze, c: Cell)
    requires InGrid(m, c)
    ensures 0 <= Idx(m, c) < m.w * m.w
  {
    Rows(c.y, m.w, m.w);
  }

  lemma Rows(a: int, b: int, w: nat)
    ensures a < b ==> a * w + w <= b * w
  {
    if a < b {
      Grow(b - a, w);
      Spread(a, b - a, w);
    }
  }

  lemma Grow(k: int, w: nat)
    requires k >= 1
    ensures k * w >= w
  {
  }

  lemma Spread(a: int, k: int, w: nat)
    ensures (a + k) * w == a * w + k * w
  {
  }

  lemma IdxInjective(m: Maze, a: Cell, b: Cell)
    requires InGrid(m, a) && InGrid(m, b) && Idx(m, a) == Idx(m, b)
    ensures a == b
  {
    Rows(a.y, b.y, m.w);
    Rows(b.y, a.y, m.w);
  }

  ghost function At<T>(m: Maze, q: seq<T>, c: Cell): T
    requires |q| == m.w * m.w && InGrid(m, c)
  {
    IdxBound(m, c);
    q[Idx(m, c)]
  }

  lemma AtIs<T>(m: Maze, q: seq<T>, c: Cell)
    requires |q| == m.w * m.w && InGrid(m, c)
    ensures 0 <= c.y * m.w + c.x < |q| && At(m, q, c) == q[c.y * m.w + c.x]
    ensures Idx(m, c) == c.y * m.w + c.x
  {
    IdxBound(m, c);
  }

  // Writing one cell's slot changes that cell only.
  lemma AtUpdate<T>(m: Maze, q: seq<T>, c: Cell, v: T)
    requires |q| == m.w * m.w && InGrid(m, c)
    ensures 0 <= Idx(m, c) < |q|
    ensures At(m, q[Idx(m, c) := v], c) == v
    ensures forall d :: InGrid(m, d) && d != c ==> At(m, q[Idx(m, c) := v], d) == At(m, q, d)
  {
    hide Idx;
    IdxBound(m, c);
    forall d | InGrid(m, d) && d != c
      ensures 0 <= Idx(m, d) < |q| && Idx(m, d) != Idx(m, c)
    {
      IdxBound(m, d);
      if Idx(m, d) == Idx(m, c) {
        IdxInjective(m, c, d);
      }
    }
  }

  // ---- What the search keeps ----

  // The state between two steps: scores, closed cells, open set.
  datatype Search = Search(score: seq<int>, done: set<Cell>, open: seq<Entry>)

  ghost predicate Shape(m: Maze, t: Search) {
    && 0 < m.w && m.w * m.w < m.inf
    && |t.score| == m.w * m.w && Sorted(t.open)
    && At(m, t.score, START) == 0
    && forall c :: c in t.done ==> InGrid(m, c) && c != m.goal
  }

  // Every entry and every score comes from a path.
  ghost predicate Sound(m: Maze, t: Search)
    requires Shape(m, t)
  {
    && (forall e :: e in t.open ==>
          var c := Cell(e.x, e.y);
          && InGrid(m, c) && e.f == e.g + Heur(m, c) && Reach(m, c, e.g)
          && At(m, t.score, c) <= e.g <= |t.done|)
    && (forall c :: c in t.done ==> At(m, t.score, c) < |t.done|)
  }

  // The current score of every cell that is not closed is in the open set.
  ghost predicate Listed(m: Maze, t: Search)
    requires Shape(m, t)
  {
    forall c :: InGrid(m, c) && c !in t.done && At(m, t.score, c) < m.inf ==>
      exists e :: e in t.open && Cell(e.x, e.y) == c && e.g == At(m, t.score, c)
  }

  ghost predicate Settled(m: Maze, t: Search)
    requires Shape(m, t)
  {
    forall c :: c in t.done ==> Dist(m, c, At(m, t.score, c))
  }

  // Closed cells have passed their score on, cur so far only in its first k directions.
  ghost predicate Relaxed(m: Maze, t: Search, cur: Cell, k: nat)
    requires Shape(m, t)
  {
    forall c, j :: c in t.done && 0 <= j < 4 && (c == cur ==> j < k) && Free(m, Neighbor(c, j)) ==>
      At(m, t.score, Neighbor(c, j)) <= At(m, t.score, c) + 1
  }

  ghost predicate Good(m: Maze, t: Search, cur: Cell, k: nat) {
    Shape(m, t) && Sound(m, t) && Listed(m, t) && Settled(m, t) && Relaxed(m, t, cur, k)
  }

  // ---- Why the first entry is right ----

  lemma {:induction false} FirstOpen(done: set<Cell>, p: seq<Cell>, n: nat) returns (k: nat)
    requires n < |p| && p[n] !in done
    ensures k <= n && p[k] !in done && forall j :: 0 <= j < k ==> p[j] in done
    decreases n
  {
    k := n;
    if j :| 0 <= j < n && p[j] !in done {
      k := FirstOpen(done, p, j);
    }
  }

  lemma DoneBound(m: Maze, t: Search)
    requires Shape(m, t)
    ensures |t.done| <= m.w * m.w
  {
    var all := UpTo(m.w * m.w);
    var idx := set c | c in t.done :: Idx(m, c);
    forall c | c in t.done ensures Idx(m, c) in all {
      IdxBound(m, c);
    }
    ImageSize(m, t.done, idx);
    Subset(idx, all);
  }

  ghost function UpTo(n: nat): (r: set<int>)
    ensures |r| == n && forall i :: i in r <==> 0 <= i < n
  {
    if n == 0 then {} else UpTo(n - 1) + {n - 1}
  }

  lemma Subset(a: set<int>, b: set<int>)
    requires a <= b
    ensures |a| <= |b|
  {
    assert a + (b - a) == b;
    assert |a + (b - a)| == |a| + |b - a|;
  }

  lemma {:induction false} ImageSize(m: Maze, cells: set<Cell>, idx: set<int>)
    requires forall c :: c in cells ==> InGrid(m, c)
    requires idx == set c | c in cells :: Idx(m, c)
    ensures |idx| == |cells|
  {
    if cells == {} {
      assert idx == {};
    } else {
      var c :| c in cells;
      var rest := cells - {c};
      var image := set d | d in rest :: Idx(m, d);
      ImageSize(m, rest, image);
      forall d | d in rest ensures Idx(m, d) != Idx(m, c) {
        if Idx(m, d) == Idx(m, c) {
          IdxInjective(m, c, d);
        }
      }
      assert idx == image + {Idx(m, c)};
    }
  }

  // A path to a cell that is not closed crosses the open set no later than the path's length
  // plus the rest of the heuristic allows.
  lemma Frontier(m: Maze, t: Search, cur: Cell, p: seq<Cell>, c: Cell) returns (e: Entry)
    requires Good(m, t, cur, 4) && Path(m, p, c) && c !in t.done
    ensures e in t.open && e.f <= |p| - 1 + Heur(m, c)
  {
    var k := FirstOpen(t.done, p, |p| - 1);
    HeurPath(m, p, c, k);
    CrossingScore(m, t, cur, p, c, k);
    hide Settled, Relaxed, Path, Heur;
    e :| e in t.open && Cell(e.x, e.y) == p[k] && e.g == At(m, t.score, p[k]);
  }

  lemma PathPrefix(m: Maze, p: seq<Cell>, c: Cell, k: nat)
    requires Path(m, p, c) && 0 < k <= |p|
    ensures Path(m, p[..k], p[k - 1])
  {
    var q := p[..k];
    forall i, j | 0 <= i < j < |q| && j == i + 1
      ensures Adjacent(q[i], q[j]) && Free(m, q[j])
    {
      assert q[i] == p[i] && q[j] == p[j];
    }
  }

  // The first cell of the path that is not closed has a score no worse than its position.
  lemma CrossingScore(m: Maze, t: Search, cur: Cell, p: seq<Cell>, c: Cell, k: nat)
    requires Good(m, t, cur, 4) && Path(m, p, c) && k < |p|
    requires forall j :: 0 <= j < k ==> p[j] in t.done
    ensures InGrid(m, p[k]) && At(m, t.score, p[k]) <= k && At(m, t.score, p[k]) < m.inf
  {
    hide Listed, Idx, At, Heur;
    DoneBound(m, t);
    if k > 0 {
      var b, d := p[k - 1], p[k];
      PathPrefix(m, p, c, k);
      assert Dist(m, b, At(m, t.score, b));
      assert Adjacent(b, d) && Free(m, d);
      AdjacentNeighbor(b, d);
      var j :| 0 <= j < 4 && d == Neighbor(b, j);
    }
  }

  // The first entry of the open set, if its cell is not closed, carries that cell's distance.
  lemma FirstIsExact(m: Maze, t: Search, cur: Cell)
    requires Good(m, t, cur, 4) && t.open != []
    requires Cell(t.open[0].x, t.open[0].y) !in t.done
    ensures Dist(m, Cell(t.open[0].x, t.open[0].y), t.open[0].g)
  {
    var first := t.open[0];
    var c := Cell(first.x, first.y);
    assert first in t.open;
    forall p | Path(m, p, c) ensures first.g <= |p| - 1 {
      var e := Frontier(m, t, cur, p, c);
      var i :| 0 <= i < |t.open| && t.open[i] == e;
    }
  }

  lemma NothingOpen(m: Maze, t: Search, cur: Cell)
    requires Good(m, t, cur, 4) && t.open == []
    ensures forall p :: !Path(m, p, m.goal)
  {
    forall p ensures !Path(m, p, m.goal) {
      if Path(m, p, m.goal) {
        var e := Frontier(m, t, cur, p, m.goal);
      }
    }
  }

  // ---- The steps ----

  // Forgetting the entry of a closed cell.
  lemma SkipStep(m: Maze, t: Search, cur: Cell)
    requires Good(m, t, cur, 4) && t.open != [] && Cell(t.open[0].x, t.open[0].y) in t.done
    ensures Good(m, t.(open := t.open[1..]), cur, 4)
  {
    var t' := t.(open := t.open[1..]);
    assert forall e :: e in t.open <==> e == t.open[0] || e in t'.open;
  }

  // The state with the first entry's cell closed.
  ghost function Closed(t: Search): Search
    requires t.open != []
  {
    t.(open := t.open[1..], done := t.done + {Cell(t.open[0].x, t.open[0].y)})
  }

  ghost predicate MayClose(m: Maze, t: Search, cur: Cell) {
    && Good(m, t, cur, 4) && t.open != []
    && var c := Cell(t.open[0].x, t.open[0].y); c !in t.done && c != m.goal
  }

  lemma CloseSound(m: Maze, t: Search, cur: Cell)
    requires MayClose(m, t, cur)
    ensures Shape(m, Closed(t)) && Sound(m, Closed(t))
  {
    hide Listed, Settled, Relaxed, Heur, Reach;
    var t' := Closed(t);
    assert t.open[0] in t.open;
    assert forall e :: e in t'.open ==> e in t.open;
    assert |t'.done| == |t.done| + 1;
  }

  lemma CloseListed(m: Maze, t: Search, cur: Cell)
    requires MayClose(m, t, cur) && Shape(m, Closed(t))
    ensures Listed(m, Closed(t))
  {
    var t' := Closed(t);
    var c := Cell(t.open[0].x, t.open[0].y);
    assert forall e :: e in t.open <==> e == t.open[0] || e in t'.open;
    forall d | InGrid(m, d) && d !in t'.done && At(m, t'.score, d) < m.inf
      ensures exists e :: e in t'.open && Cell(e.x, e.y) == d && e.g == At(m, t'.score, d)
    {
      var e :| e in t.open && Cell(e.x, e.y) == d && e.g == At(m, t.score, d);
    }
  }

  // Closing the first entry's cell, which carries its distance.
  lemma CloseStep(m: Maze, t: Search, cur: Cell)
    requires MayClose(m, t, cur)
    ensures var c := Cell(t.open[0].x, t.open[0].y);
      && InGrid(m, c) && Dist(m, c, t.open[0].g) && t.open[0].g >= 0
      && Good(m, Closed(t), c, 0)
      && At(m, t.score, c) == t.open[0].g <= |t.done|
  {
    var first := t.open[0];
    var c := Cell(first.x, first.y);
    assert first in t.open;
    FirstIsExact(m, t, cur);
    DoneBound(m, t);
    ScoreExact(m, t, c, first.g);
    CloseSound(m, t, cur);
    CloseListed(m, t, cur);
    CloseSettled(m, t, cur);
  }

  lemma CloseSettled(m: Maze, t: Search, cur: Cell)
    requires MayClose(m, t, cur) && Shape(m, Closed(t))
    requires var c := Cell(t.open[0].x, t.open[0].y);
      InGrid(m, c) && Dist(m, c, At(m, t.score, c))
    ensures Settled(m, Closed(t))
    ensures Relaxed(m, Closed(t), Cell(t.open[0].x, t.open[0].y), 0)
  {
    hide Sound, Listed, Dist, Heur;
  }

  // A score below the distance would be a shorter path.
  lemma ScoreExact(m: Maze, t: Search, c: Cell, g: int)
    requires Shape(m, t) && Sound(m, t) && Listed(m, t)
    requires InGrid(m, c) && c !in t.done && Dist(m, c, g) && At(m, t.score, c) <= g < m.inf
    ensures At(m, t.score, c) == g && g >= 0
  {
    var e :| e in t.open && Cell(e.x, e.y) == c && e.g == At(m, t.score, c);
    var p :| Path(m, p, c) && |p| - 1 == e.g;
  }

  // A direction that leads nowhere new: off the grid, into a wall, to a closed cell, or to a
  // cell whose score is good enough already.
  lemma PassStep(m: Maze, t: Search, c: Cell, k: nat)
    requires Good(m, t, c, k) && k < 4 && c in t.done
    requires var n := Neighbor(c, k);
      Free(m, n) ==> n in t.done || At(m, t.score, n) <= At(m, t.score, c) + 1
    ensures Good(m, t, c, k + 1)
  {
    var n := Neighbor(c, k);
    hide Sound, Listed, Heur;
    if Free(m, n) && n in t.done {
      DistStep(m, c, At(m, t.score, c), n, At(m, t.score, n), k);
    }
    hide Settled, Dist;
  }

  // Neighbouring distances differ by at most one.
  lemma DistStep(m: Maze, c: Cell, g: int, n: Cell, h: int, k: nat)
    requires Dist(m, c, g) && Dist(m, n, h) && n == Neighbor(c, k) && k < 4 && Free(m, n)
    ensures h <= g + 1
  {
    AdjacentNeighbor(c, n);
    PathStep(m, c, g, n);
    var p :| Path(m, p, n) && |p| - 1 == g + 1;
  }

  // A better score for an open cell goes into the arrays and into the open set.
  ghost function Improved(m: Maze, t: Search, n: Cell, e: Entry, at: nat): Search
    requires |t.score| == m.w * m.w && InGrid(m, n) && at <= |t.open|
  {
    IdxBound(m, n);
    t.(score := t.score[Idx(m, n) := e.g], open := t.open[..at] + [e] + t.open[at..])
  }

  ghost predicate MayImprove(m: Maze, t: Search, c: Cell, k: nat, e: Entry, at: nat) {
    && Good(m, t, c, k) && k < 4 && c in t.done
    && var n := Neighbor(c, k);
    && Free(m, n) && n !in t.done
    && e == Entry(At(m, t.score, c) + 1 + Heur(m, n), At(m, t.score, c) + 1, n.x, n.y)
    && e.g < At(m, t.score, n)
    && UpperBound(t.open, e.f, at)
  }

  lemma ImproveShape(m: Maze, t: Search, c: Cell, k: nat, e: Entry, at: nat)
    requires MayImprove(m, t, c, k, e, at)
    ensures var n := Neighbor(c, k);
      var t' := Improved(m, t, n, e, at);
      && Shape(m, t')
      && At(m, t'.score, n) == e.g
      && (forall d :: InGrid(m, d) && d != n ==> At(m, t'.score, d) == At(m, t.score, d))
      && (forall x :: x in t'.open <==> x == e || x in t.open)
  {
    hide Sound, Listed, Settled, Relaxed, Heur;
    var n := Neighbor(c, k);
    AtUpdate(m, t.score, n, e.g);
    InsertSorted(t.open, e, at);
    ScoreNat(m, t, c);
  }

  lemma ScoreNat(m: Maze, t: Search, c: Cell)
    requires Shape(m, t) && Settled(m, t) && c in t.done
    ensures At(m, t.score, c) >= 0
  {
    assert Dist(m, c, At(m, t.score, c));
  }

  lemma ImproveSound(m: Maze, t: Search, c: Cell, k: nat, e: Entry, at: nat)
    requires MayImprove(m, t, c, k, e, at)
    requires Shape(m, Improved(m, t, Neighbor(c, k), e, at))
    ensures Sound(m, Improved(m, t, Neighbor(c, k), e, at))
  {
    hide Listed, Relaxed, Idx, At, Heur;
    ImproveShape(m, t, c, k, e, at);
    var n := Neighbor(c, k);
    AdjacentNeighbor(c, n);
    assert Dist(m, c, At(m, t.score, c));
    PathStep(m, c, At(m, t.score, c), n);
    hide Settled, Reach, Dist;
    var t' := Improved(m, t, n, e, at);
    forall x | x in t'.open
      ensures InGrid(m, Cell(x.x, x.y)) && x.f == x.g + Heur(m, Cell(x.x, x.y))
      ensures Reach(m, Cell(x.x, x.y), x.g)
      ensures At(m, t'.score, Cell(x.x, x.y)) <= x.g <= |t'.done|
    {
      assert x != e ==> x in t.open;
    }
  }

  lemma ImproveListed(m: Maze, t: Search, c: Cell, k: nat, e: Entry, at: nat)
    requires MayImprove(m, t, c, k, e, at)
    requires Shape(m, Improved(m, t, Neighbor(c, k), e, at))
    ensures Listed(m, Improved(m, t, Neighbor(c, k), e, at))
  {
    hide Sound, Settled, Relaxed, Heur;
    ImproveShape(m, t, c, k, e, at);
    var n := Neighbor(c, k);
    var t' := Improved(m, t, n, e, at);
    forall d | InGrid(m, d) && d !in t'.done && At(m, t'.score, d) < m.inf
      ensures exists x :: x in t'.open && Cell(x.x, x.y) == d && x.g == At(m, t'.score, d)
    {
      if d == n {
        assert e in t'.open;
      } else {
        var x :| x in t.open && Cell(x.x, x.y) == d && x.g == At(m, t.score, d);
        assert x in t'.open;
      }
    }
  }

  lemma ImproveStep(m: Maze, t: Search, c: Cell, k: nat, e: Entry, at: nat)
    requires MayImprove(m, t, c, k, e, at)
    ensures Good(m, Improved(m, t, Neighbor(c, k), e, at), c, k + 1)
  {
    hide Idx;
    ImproveShape(m, t, c, k, e, at);
    ImproveSound(m, t, c, k, e, at);
    ImproveListed(m, t, c, k, e, at);
    hide Sound, Listed, Dist, Heur, At, Improved;
  }

  // ---- The search ----

  ghost predicate ClosedIs(m: Maze, closed: seq<bool>, done: set<Cell>) {
    |closed| == m.w * m.w && forall c :: InGrid(m, c) ==> (At(m, closed, c) <==> c in done)
  }

  ghost predicate Initial(m: Maze, t: Search) {
    && |t.score| == m.w * m.w && 0 < m.w && m.w * m.w < m.inf
    && (forall i :: 0 <= i < |t.score| ==> t.score[i] == if i == 0 then 0 else m.inf)
    && t.done == {} && t.open == [Entry(Heur(m, START), 0, 0, 0)]
  }

  lemma InitialGood(m: Maze, t: Search)
    requires Initial(m, t)
    ensures Good(m, t, START, 4)
  {
    assert Path(m, [START], START) && |[START]| - 1 == 0;
    assert At(m, t.score, START) == t.score[0];
    forall c | InGrid(m, c) && At(m, t.score, c) < m.inf ensures c == START {
      IdxBound(m, c);
      IdxInjective(m, c, START);
    }
    assert t.open[0] in t.open;
  }

  lemma SearchFacts(m: Maze, t: Search, cur: Cell, k: nat)
    requires Good(m, t, cur, k)
    ensures 0 < m.w && m.w * m.w < m.inf && |t.score| == m.w * m.w && |t.done| <= m.w * m.w
    ensures forall e :: e in t.open ==> InGrid(m, Cell(e.x, e.y))
    ensures forall c :: c in t.done ==> InGrid(m, c)
    ensures Shape(m, t) && Settled(m, t)
  {
    DoneBound(m, t);
  }

  lemma CloseMarks(m: Maze, closed: seq<bool>, done: set<Cell>, c: Cell)
    requires ClosedIs(m, closed, done) && InGrid(m, c)
    ensures 0 <= Idx(m, c) < |closed|
    ensures ClosedIs(m, closed[Idx(m, c) := true], done + {c})
  {
    AtUpdate(m, closed, c, true);
  }

  // A cell that a path reaches with less than the first entry's priority is closed.
  lemma CheaperClosed(m: Maze, t: Search, cur: Cell, r: int)
    requires Good(m, t, cur, 4) && (t.open != [] ==> r <= t.open[0].f)
    ensures t.open != [] ==> ClosedBelow(m, t.done, r)
    ensures t.open == [] ==> ClosedAll(m, t.done)
  {
    assert forall e :: e in t.open ==> t.open[0].f <= e.f;
    forall p, c | Path(m, p, c) && (t.open == [] || |p| - 1 + Heur(m, c) < r) ensures c in t.done {
      if c !in t.done {
        var e := Frontier(m, t, cur, p, c);
      }
    }
    forall c | c in t.done ensures exists p :: Path(m, p, c) {
      assert Dist(m, c, At(m, t.score, c));
    }
  }

  // Every cell whose path length and heuristic together are below r is closed.
  ghost predicate ClosedBelow(m: Maze, done: set<Cell>, r: int) {
    forall p, c :: Path(m, p, c) && |p| - 1 + Heur(m, c) < r ==> c in done
  }

  // The closed cells are the cells that can be reached.
  ghost predicate ClosedAll(m: Maze, done: set<Cell>) {
    && (forall p, c :: Path(m, p, c) ==> c in done)
    && (forall c :: c in done ==> exists p :: Path(m, p, c))
  }

  // What the two arrays hold when the search ends: the closed cells carry their distances.
  ghost predicate Exact(m: Maze, score: seq<int>, closed: seq<bool>, done: set<Cell>) {
    && |score| == m.w * m.w && ClosedIs(m, closed, done)
    && forall c :: c in done ==> InGrid(m, c) && Dist(m, c, At(m, score, c))
  }

  lemma GoodExact(m: Maze, score: seq<int>, closed: seq<bool>, done: set<Cell>, open: seq<Entry>,
                  cur: Cell)
    requires Good(m, Search(score, done, open), cur, 4) && ClosedIs(m, closed, done)
    ensures Exact(m, score, closed, done)
  {
  }

  // The search: 4-neighbour moves, the first entry taken, stale entries skipped. The two arrays
  // it works on are returned as they are when it stops.
  method Shortest(m: Maze)
    returns (r: int, score: array<int>, closed: array<bool>, ghost done: set<Cell>)
    requires 0 < m.w && m.w * m.w < m.inf
    ensures r >= 0 ==> Dist(m, m.goal, r)
    ensures r < 0 ==> r == -1 && forall p :: !Path(m, p, m.goal)
    ensures Exact(m, score[..], closed[..], done)
    ensures if r < 0 then ClosedAll(m, done) else ClosedBelow(m, done, r)
  {
    hide Good, Shape, Sound, Listed, Settled, Relaxed, Dist, At, Heur, Path, ClosedIs, Exact;
    hide ClosedAll, ClosedBelow;
    score := new int[m.w * m.w](_ => m.inf);
    closed := new bool[m.w * m.w](_ => false);
    score[0] := 0;
    var open := new OpenSet(Entry(Heur(m, START), 0, 0, 0));
    done := {};
    ghost var cur := START;
    InitialGood(m, Search(score[..], done, open.s));
    Unmarked(m, closed[..]);
    while open.s != []
      invariant Good(m, Search(score[..], done, open.s), cur, 4)
      invariant ClosedIs(m, closed[..], done) && closed.Length == m.w * m.w
      decreases m.w * m.w - |done|, |open.s|
    {
      var found;
      found, r, done, cur := Pass(m, score, closed, open, done, cur);
      if found {
        GoodExact(m, score[..], closed[..], done, open.s, cur);
        CheaperClosed(m, Search(score[..], done, open.s), cur, r);
        return;
      }
      SearchFacts(m, Search(score[..], done, open.s), cur, 4);
    }
    GoodExact(m, score[..], closed[..], done, [], cur);
    CheaperClosed(m, Search(score[..], done, []), cur, 0);
    NothingOpen(m, Search(score[..], done, []), cur);
    r := -1;
  }

  // One turn of the loop: the first entry is the goal, is stale, or closes its cell.
  method Pass(m: Maze, score: array<int>, closed: array<bool>, open: OpenSet,
              ghost done: set<Cell>, ghost cur: Cell)
    returns (found: bool, g: int, ghost done': set<Cell>, ghost cur': Cell)
    requires Good(m, Search(score[..], done, open.s), cur, 4) && open.s != []
    requires ClosedIs(m, closed[..], done) && closed.Length == m.w * m.w
    modifies score, closed, open
    ensures Good(m, Search(score[..], done', open.s), cur', 4) && ClosedIs(m, closed[..], done')
    ensures found ==> g >= 0 && Dist(m, m.goal, g) && open.s != [] && g <= open.s[0].f
    ensures !found ==> |done'| == |done| + 1 || (done' == done && |open.s| < |old(open.s)|)
  {
    hide Good, Shape, Sound, Listed, Settled, Relaxed, Dist, At, Heur, Path, ClosedIs;
    ghost var t := Search(score[..], done, open.s);
    SearchFacts(m, t, cur, 4);
    done', cur' := done, cur;
    var e := open.s[0];
    var c := Cell(e.x, e.y);
    assert e in t.open;
    ClosedAt(m, closed[..], done, c);
    if c == m.goal {
      GoalFound(m, t, cur);
      return true, e.g, done, cur;
    }
    var popped := open.Pop();
    assert open.s == t.open[1..];
    found, g := false, e.g;
    if closed[c.y * m.w + c.x] {
      SkipStep(m, t, cur);
      return;
    }
    CloseStep(m, t, cur);
    CloseMarks(m, closed[..], done, c);
    closed[c.y * m.w + c.x] := true;
    done', cur' := done + {c}, c;
    assert Search(score[..], done', open.s) == Closed(t);
    Expand(m, g, c, score, closed, open, done');
  }

  lemma Unmarked(m: Maze, closed: seq<bool>)
    requires |closed| == m.w * m.w && forall i :: 0 <= i < |closed| ==> !closed[i]
    ensures ClosedIs(m, closed, {})
  {
    forall c | InGrid(m, c) ensures !At(m, closed, c) {
      AtIs(m, closed, c);
    }
  }

  lemma ClosedAt(m: Maze, closed: seq<bool>, done: set<Cell>, c: Cell)
    requires ClosedIs(m, closed, done) && InGrid(m, c)
    ensures 0 <= c.y * m.w + c.x < |closed| && Idx(m, c) == c.y * m.w + c.x
    ensures closed[c.y * m.w + c.x] <==> c in done
  {
    AtIs(m, closed, c);
  }

  lemma GoalFound(m: Maze, t: Search, cur: Cell)
    requires Good(m, t, cur, 4) && t.open != [] && Cell(t.open[0].x, t.open[0].y) == m.goal
    ensures Dist(m, m.goal, t.open[0].g) && 0 <= t.open[0].g <= t.open[0].f
  {
    FirstIsExact(m, t, cur);
    var p :| Path(m, p, m.goal) && |p| - 1 == t.open[0].g;
  }

  // The four directions of a cell that has just been closed with score g.
  method Expand(m: Maze, g: int, c: Cell, score: array<int>, closed: array<bool>, open: OpenSet,
                ghost done: set<Cell>)
    requires Good(m, Search(score[..], done, open.s), c, 0) && c in done
    requires ClosedIs(m, closed[..], done) && At(m, score[..], c) == g
    modifies score, open
    ensures Good(m, Search(score[..], done, open.s), c, 4)
  {
    SearchFacts(m, Search(score[..], done, open.s), c, 0);
    hide Good, Sound, Listed, Settled, Relaxed, At, Heur, ClosedIs, Shape;
    for k := 0 to 4
      invariant Good(m, Search(score[..], done, open.s), c, k)
      invariant score.Length == m.w * m.w && InGrid(m, c) && At(m, score[..], c) == g
    {
      Visit(m, g, c, k, score, closed, open, done);
    }
  }

  method Visit(m: Maze, g: int, c: Cell, k: nat, score: array<int>, closed: array<bool>,
               open: OpenSet, ghost done: set<Cell>)
    requires Good(m, Search(score[..], done, open.s), c, k) && c in done && k < 4
    requires ClosedIs(m, closed[..], done) && score.Length == m.w * m.w && InGrid(m, c)
    requires At(m, score[..], c) == g
    modifies score, open
    ensures Good(m, Search(score[..], done, open.s), c, k + 1)
    ensures At(m, score[..], c) == g
  {
    hide Good, Sound, Listed, Settled, Relaxed, At, Heur, ClosedIs, Shape;
    ghost var t := Search(score[..], done, open.s);
    var n := Neighbor(c, k);
    SearchFacts(m, t, c, k);
    if n.x < 0 || n.x >= m.w || n.y < 0 || n.y >= m.w {
      PassStep(m, t, c, k);
      return;
    }
    AtIs(m, score[..], n);
    ClosedAt(m, closed[..], done, n);
    var i := n.y * m.w + n.x;
    if m.wall(n.x, n.y) || closed[i] {
      PassStep(m, t, c, k);
      return;
    }
    if g + 1 < score[i] {
      score[i] := g + 1;
      var e := Entry(g + 1 + Heur(m, n), g + 1, n.x, n.y);
      ghost var at := open.Insert(e);
      assert MayImprove(m, t, c, k, e, at);
      ImproveStep(m, t, c, k, e, at);
      AtUpdate(m, t.score, n, g + 1);
      assert Search(score[..], done, open.s) == Improved(m, t, n, e, at);
    } else {
      PassStep(m, t, c, k);
    }
  }

  // ---- The benchmark's grid ----

  predicate BenchWall(x: int, y: int) {
    if x <= 0 || y <= 0 || x >= 99 || y >= 99 then false else (x * 5 + y * 3) % 13 < 4
  }

  const BENCH := Maze(100, BenchWall, Cell(99, 99), 9999999)

  // Along the top edge and down the right one there are no walls.
  function Border(i: nat): Cell { if i <= 99 then Cell(i, 0) else Cell(99, i - 99) }

  lemma BorderPath()
    ensures Reach(BENCH, BENCH.goal, 198)
  {
    var p := seq(199, i requires 0 <= i < 199 => Border(i));
    forall i, j | 0 <= i < j < |p| && j == i + 1
      ensures Adjacent(p[i], p[j]) && Free(BENCH, p[j])
    {
      assert p[i] == Border(i) && p[j] == Border(j);
    }
    assert Path(BENCH, p, BENCH.goal);
  }

  // The heuristic's bound is met by the walk along the border.
  lemma BenchDistance(r: int)
    requires Dist(BENCH, BENCH.goal, r)
    ensures r == 198
  {
    BorderPath();
    var p :| Path(BENCH, p, BENCH.goal) && |p| - 1 == r;
    HeurPath(BENCH, p, BENCH.goal, 0);
    var q :| Path(BENCH, q, BENCH.goal) && |q| - 1 == 198;
  }

  method Bench() returns (r: int)
    ensures r == 198
  {
    hide Path, Dist, Exact, Reach, ClosedAll, ClosedBelow;
    var score, closed;
    ghost var done;
    r, score, closed, done := Shortest(BENCH);
    BorderPath();
    if r < 0 {
      Reachable(BENCH, 198);
    } else {
      BenchDistance(r);
    }
  }

  lemma Reachable(m: Maze, n: int)
    requires Reach(m, m.goal, n)
    ensures exists p :: Path(m, p, m.goal)
  {
    var p :| Path(m, p, m.goal) && |p| - 1 == n;
  }
}
