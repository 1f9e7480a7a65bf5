// Three representations of the n-queens count agree with the number of non-attacking boards.
module NQueens {

  // ---- Boards ----

  // A board is the column of the queen of each row.
  ghost predicate Attacks(b: seq<nat>, i: nat, j: nat)
    requires i < j < |b|
  {
    b[i] == b[j] || b[i] + i == b[j] + j || b[i] + j == b[j] + i
  }

  ghost predicate Peaceful(b: seq<nat>) {
    forall i, j :: 0 <= i < j < |b| ==> !Attacks(b, i, j)
  }

  // All sequences of k columns below n.
  ghost function Boards(n: nat, k: nat): (r: set<seq<nat>>) {
    if k == 0 then {[]}
    else set b, c | b in Boards(n, k - 1) && c in Columns(n) :: b + [c]
  }

  ghost function Columns(n: nat): (r: set<nat>)
    ensures |r| == n && forall c: nat :: c in r <==> c < n
  {
    if n == 0 then {} else Columns(n - 1) + {n - 1}
  }

  lemma {:induction false} BoardsAre(n: nat, k: nat, b: seq<nat>)
    ensures b in Boards(n, k) <==> |b| == k && forall i :: 0 <= i < k ==> b[i] < n
  {
    if k > 0 {
      if |b| == k {
        var c := b[k - 1];
        assert b == b[..k - 1] + [c];
        BoardsAre(n, k - 1, b[..k - 1]);
        if b in Boards(n, k) {
          var b', c' :| b' in Boards(n, k - 1) && c' in Columns(n) && b == b' + [c'];
          BoardsAre(n, k - 1, b');
          assert b' == b[..k - 1];
        }
      } else if b in Boards(n, k) {
        var b', c' :| b' in Boards(n, k - 1) && c' in Columns(n) && b == b' + [c'];
        BoardsAre(n, k - 1, b');
      }
    } else {
      assert |b| == 0 <==> b == [];
    }
  }

  // The solutions that start with the columns p and go on in a column not below col.
  ghost function From(n: nat, p: seq<nat>, col: nat): set<seq<nat>> {
    set b | b in Boards(n, n) && Peaceful(b) && p <= b && (|p| < |b| ==> b[|p|] >= col)
  }

  // The number of non-attacking boards of n queens.
  ghost function Solutions(n: nat): nat {
    |From(n, [], 0)|
  }

  lemma FromIs(n: nat, p: seq<nat>, col: nat, b: seq<nat>)
    ensures b in From(n, p, col) <==>
      && |b| == n && (forall i :: 0 <= i < n ==> b[i] < n) && Peaceful(b)
      && p <= b && (|p| < n ==> b[|p|] >= col)
  {
    BoardsAre(n, n, b);
  }

  // Column col is where the next queen stands, or it is not.
  lemma FromSplits(n: nat, p: seq<nat>, col: nat)
    requires |p| < n && col < n
    ensures |From(n, p, col)| == |From(n, p, col + 1)| + |From(n, p + [col], 0)|
  {
    var here, later, all := From(n, p + [col], 0), From(n, p, col + 1), From(n, p, col);
    forall b ensures b in all <==> b in here || b in later
             ensures !(b in here && b in later) {
      FromIs(n, p, col, b);
      FromIs(n, p, col + 1, b);
      FromIs(n, p + [col], 0, b);
      if p <= b && |b| == n {
        assert p + [col] <= b <==> b[|p|] == col;
      }
    }
    assert all == here + later && here !! later;
  }

  lemma FromEnd(n: nat, p: seq<nat>)
    requires |p| < n
    ensures From(n, p, n) == {}
  {
    forall b ensures b !in From(n, p, n) {
      FromIs(n, p, n, b);
    }
  }

  lemma FromFull(n: nat, p: seq<nat>)
    requires |p| == n && Peaceful(p) && forall i :: 0 <= i < n ==> p[i] < n
    ensures From(n, p, 0) == {p}
  {
    forall b ensures b in From(n, p, 0) <==> b == p {
      FromIs(n, p, 0, b);
    }
  }

  lemma FromAttacked(n: nat, p: seq<nat>)
    requires !Peaceful(p)
    ensures From(n, p, 0) == {}
  {
    forall b ensures b !in From(n, p, 0) {
      FromIs(n, p, 0, b);
      if p <= b {
        var i, j :| 0 <= i < j < |p| && Attacks(p, i, j);
        assert Attacks(b, i, j) || |b| < |p|;
      }
    }
  }

  // ---- Where the next queen may stand ----

  ghost predicate Placed(n: nat, p: seq<nat>) {
    |p| <= n && Peaceful(p) && forall i :: 0 <= i < |p| ==> p[i] < n
  }

  ghost predicate Fits(p: seq<nat>, col: nat) {
    forall i :: 0 <= i < |p| ==>
      p[i] != col && p[i] + i != col + |p| && p[i] + |p| != col + i
  }

  lemma FitsIs(n: nat, p: seq<nat>, col: nat)
    requires Placed(n, p) && col < n
    ensures Peaceful(p + [col]) <==> Fits(p, col)
    ensures Fits(p, col) && |p| < n ==> Placed(n, p + [col])
  {
    var q := p + [col];
    if Fits(p, col) {
      forall i, j | 0 <= i < j < |q| ensures !Attacks(q, i, j) {
        if j < |p| {
          assert !Attacks(p, i, j);
        }
      }
    } else {
      var i :| 0 <= i < |p| &&
        !(p[i] != col && p[i] + i != col + |p| && p[i] + |p| != col + i);
      assert Attacks(q, i, |p|);
    }
  }

  // ---- The three boolean tables ----

  ghost predicate Tables(n: nat, p: seq<nat>, cols: seq<bool>, pos: seq<bool>, neg: seq<bool>) {
    && |cols| == n && |pos| == 2 * n - 1 && |neg| == 2 * n - 1
    && (forall c :: 0 <= c < n ==> (cols[c] <==> exists i :: 0 <= i < |p| && p[i] == c))
    && (forall d :: 0 <= d < 2 * n - 1 ==>
          (pos[d] <==> exists i :: 0 <= i < |p| && p[i] + i == d))
    && (forall d :: 0 <= d < 2 * n - 1 ==>
          (neg[d] <==> exists i :: 0 <= i < |p| && i - p[i] + n - 1 == d))
  }

  lemma TablesSayFits(n: nat, p: seq<nat>, cols: seq<bool>, pos: seq<bool>, neg: seq<bool>,
                      col: nat)
    requires Placed(n, p) && Tables(n, p, cols, pos, neg) && |p| < n && col < n
    ensures Fits(p, col) <==> !cols[col] && !pos[|p| + col] && !neg[|p| - col + n - 1]
  {
    var r := |p|;
    if cols[col] {
      var i :| 0 <= i < r && p[i] == col;
    }
    if pos[r + col] {
      var i :| 0 <= i < r && p[i] + i == r + col;
    }
    if neg[r - col + n - 1] {
      var i :| 0 <= i < r && i - p[i] + n - 1 == r - col + n - 1;
    }
  }

  lemma TablesPlace(n: nat, p: seq<nat>, cols: seq<bool>, pos: seq<bool>, neg: seq<bool>,
                    col: nat)
    requires Tables(n, p, cols, pos, neg) && |p| < n && col < n
    ensures Tables(n, p + [col], cols[col := true], pos[|p| + col := true],
                   neg[|p| - col + n - 1 := true])
  {
    var q := p + [col];
    var cols', pos', neg' := cols[col := true], pos[|p| + col := true],
      neg[|p| - col + n - 1 := true];
    assert q[|p|] == col && forall i :: 0 <= i < |p| ==> q[i] == p[i];
    forall c | 0 <= c < n
      ensures cols'[c] <==> exists i :: 0 <= i < |q| && q[i] == c
    {
      if exists i :: 0 <= i < |p| && p[i] == c {
        var i :| 0 <= i < |p| && p[i] == c;
        assert q[i] == c;
      }
    }
    forall d | 0 <= d < 2 * n - 1
      ensures pos'[d] <==> exists i :: 0 <= i < |q| && q[i] + i == d
    {
      if exists i :: 0 <= i < |p| && p[i] + i == d {
        var i :| 0 <= i < |p| && p[i] + i == d;
        assert q[i] + i == d;
      }
      if d == |p| + col {
        assert q[|p|] + |p| == d;
      }
    }
    forall d | 0 <= d < 2 * n - 1
      ensures neg'[d] <==>
                exists i :: 0 <= i < |q| && i - q[i] + n - 1 == d
    {
      if exists i :: 0 <= i < |p| && i - p[i] + n - 1 == d {
        var i :| 0 <= i < |p| && i - p[i] + n - 1 == d;
        assert i - q[i] + n - 1 == d;
      }
      if d == |p| - col + n - 1 {
        assert |p| - q[|p|] + n - 1 == d;
      }
    }
  }

  // ---- Pure ----

  function QueensPure(n: nat, row: nat, col: nat, cols: seq<bool>, pos: seq<bool>, neg: seq<bool>)
    : (count: nat)
    requires row <= n && |cols| == n && |pos| == 2 * n - 1 && |neg| == 2 * n - 1
    decreases n - row, n - col
  {
    if row == n then 1
    else if col >= n then 0
    else
      var skip := QueensPure(n, row, col + 1, cols, pos, neg);
      var pd, nd := row + col, row - col + n - 1;
      var place := if !cols[col] && !pos[pd] && !neg[nd]
        then QueensPure(n, row + 1, 0, cols[col := true], pos[pd := true], neg[nd := true])
        else 0;
      skip + place
  }

  function CountPure(n: nat): (count: nat)
    requires n >= 1
  {
    QueensPure(n, 0, 0, seq(n, _ => false), seq(2 * n - 1, _ => false), seq(2 * n - 1, _ => false))
  }

  lemma {:induction false} PureCounts(n: nat, p: seq<nat>, col: nat, cols: seq<bool>,
                                      pos: seq<bool>, neg: seq<bool>)
    requires Placed(n, p) && Tables(n, p, cols, pos, neg)
    ensures QueensPure(n, |p|, col, cols, pos, neg) ==
              if |p| == n then 1 else if col >= n then 0 else |From(n, p, col)|
    decreases n - |p|, n - col
  {
    if |p| < n && col < n {
      PureCounts(n, p, col + 1, cols, pos, neg);
      if col + 1 == n {
        FromEnd(n, p);
      }
      FromSplits(n, p, col);
      FitsIs(n, p, col);
      TablesSayFits(n, p, cols, pos, neg, col);
      if Fits(p, col) {
        TablesPlace(n, p, cols, pos, neg, col);
        var q := p + [col];
        PureCounts(n, q, 0, cols[col := true], pos[|p| + col := true],
                   neg[|p| - col + n - 1 := true]);
        if |q| == n {
          FromFull(n, q);
        }
      } else {
        FromAttacked(n, p + [col]);
      }
    }
  }

  lemma PureIsRight(n: nat)
    requires n >= 1
    ensures CountPure(n) == Solutions(n)
  {
    PureCounts(n, [], 0, seq(n, _ => false), seq(2 * n - 1, _ => false),
               seq(2 * n - 1, _ => false));
  }

  // ---- Mutable ----

  // Places and takes back on the same three arrays, which it leaves as they were.
  method QueensMut(n: nat, row: nat, col: nat, cols: array<bool>, pos: array<bool>,
                   neg: array<bool>) returns (count: nat)
    requires row <= n && cols.Length == n && pos.Length == neg.Length == 2 * n - 1
    requires cols != pos && cols != neg && pos != neg
    modifies cols, pos, neg
    ensures cols[..] == old(cols[..]) && pos[..] == old(pos[..]) && neg[..] == old(neg[..])
    ensures count == QueensPure(n, row, col, old(cols[..]), old(pos[..]), old(neg[..]))
    decreases n - row, n - col
  {
    if row == n { return 1; }
    if col >= n { return 0; }
    var pd, nd := row + col, row - col + n - 1;
    var skip := QueensMut(n, row, col + 1, cols, pos, neg);
    var place := 0;
    ghost var c, p, q := cols[..], pos[..], neg[..];
    if !cols[col] && !pos[pd] && !neg[nd] {
      cols[col], pos[pd], neg[nd] := true, true, true;
      assert cols[..] == c[col := true] && pos[..] == p[pd := true] && neg[..] == q[nd := true];
      place := QueensMut(n, row + 1, 0, cols, pos, neg);
      cols[col], pos[pd], neg[nd] := false, false, false;
      assert cols[..] == c && pos[..] == p && neg[..] == q;
    }
    return skip + place;
  }

  method CountMut(n: nat) returns (count: nat)
    requires n >= 1
    ensures count == Solutions(n)
  {
    var cols := new bool[n](_ => false);
    var pos := new bool[2 * n - 1](_ => false);
    var neg := new bool[2 * n - 1](_ => false);
    assert cols[..] == seq(n, _ => false);
    assert pos[..] == neg[..] == seq(2 * n - 1, _ => false);
    count := QueensMut(n, 0, 0, cols, pos, neg);
    PureIsRight(n);
  }

  // ---- Machine words ----

  // A signed 64-bit integer as its bits, least significant first.
  type Word = w: seq<bool> | |w| == 64 witness Zeros(64)

  function Zeros(n: nat): (w: seq<bool>)
    ensures |w| == n && forall i :: 0 <= i < n ==> !w[i]
  {
    if n == 0 then [] else [false] + Zeros(n - 1)
  }

  const ZERO: Word := Zeros(64)

  function And(x: Word, y: Word): Word { seq(64, i requires 0 <= i < 64 => x[i] && y[i]) }
  function Or(x: Word, y: Word): Word { seq(64, i requires 0 <= i < 64 => x[i] || y[i]) }
  function Not(x: Word): Word { seq(64, i requires 0 <= i < 64 => !x[i]) }

  // The bit shifted out is lost; a right shift repeats the sign.
  function Shl(x: Word): Word { [false] + x[..63] }
  function Shr(x: Word): Word { x[1..] + [x[63]] }

  // Adding and subtracting one, the carry running up from the low end and out at the top.
  function Inc(s: seq<bool>): (r: seq<bool>)
    ensures |r| == |s|
  {
    if s == [] then [] else if s[0] then [false] + Inc(s[1..]) else [true] + s[1..]
  }

  function Dec(s: seq<bool>): (r: seq<bool>)
    ensures |r| == |s|
  {
    if s == [] then [] else if s[0] then [false] + s[1..] else [true] + Dec(s[1..])
  }

  function Neg(x: Word): Word { Inc(Not(x)) }

  // 1 << c
  function One(c: nat): Word
    requires c < 64
  {
    ZERO[c := true]
  }

  // The lowest set bit of s is at c.
  ghost predicate LowestAt(s: seq<bool>, c: nat) {
    c < |s| && s[c] && forall d :: 0 <= d < c ==> !s[d]
  }

  // Up to the lowest set bit, negation keeps the bits; above it, it flips them.
  lemma {:induction false} NegBits(s: seq<bool>, n: seq<bool>, c: nat)
    requires LowestAt(s, c) && |n| == |s| && forall i :: 0 <= i < |s| ==> n[i] == !s[i]
    ensures forall i :: 0 <= i < |s| ==> Inc(n)[i] == if i <= c then s[i] else !s[i]
  {
    if c > 0 {
      assert n[0] && !s[0];
      NegBits(s[1..], n[1..], c - 1);
      var r := Inc(n[1..]);
      assert Inc(n) == [false] + r;
      forall i | 0 <= i < |s| ensures Inc(n)[i] == if i <= c then s[i] else !s[i] {
        if i > 0 {
          assert Inc(n)[i] == r[i - 1];
        }
      }
    }
  }

  // Subtracting one clears the lowest set bit and sets those below it.
  lemma {:induction false} DecBits(s: seq<bool>, c: nat)
    requires LowestAt(s, c)
    ensures forall i :: 0 <= i < |s| ==> Dec(s)[i] == if i < c then true else if i == c then false else s[i]
  {
    if c > 0 {
      DecBits(s[1..], c - 1);
      var r := Dec(s[1..]);
      assert Dec(s) == [true] + r;
      forall i | 0 <= i < |s|
        ensures Dec(s)[i] == if i < c then true else if i == c then false else s[i]
      {
        if i > 0 {
          assert Dec(s)[i] == r[i - 1];
        }
      }
    }
  }

  lemma {:induction false} HasLowest(s: seq<bool>) returns (c: nat)
    requires exists i :: 0 <= i < |s| && s[i]
    ensures LowestAt(s, c)
  {
    if s[0] {
      c := 0;
    } else {
      var i :| 0 <= i < |s| && s[i];
      assert s[1..][i - 1];
      var c' := HasLowest(s[1..]);
      c := c' + 1;
      assert forall d :: 0 < d < c ==> s[d] == s[1..][d - 1];
    }
  }

  lemma AllClear(x: Word)
    ensures (forall i :: 0 <= i < 64 ==> !x[i]) ==> x == ZERO
  {
  }

  // x & -x isolates the lowest set bit and x & (x - 1) clears it.
  lemma LowestBit(x: Word) returns (c: nat)
    requires x != ZERO
    ensures c < 64 && LowestAt(x, c)
    ensures And(x, Neg(x)) == One(c)
    ensures And(x, Dec(x)) == x[c := false]
  {
    AllClear(x);
    c := HasLowest(x);
    NegBits(x, Not(x), c);
    DecBits(x, c);
  }

  // (1 << n) - 1
  function Mask(n: nat): Word
    requires n < 64
  {
    Dec(One(n))
  }

  lemma MaskBits(n: nat)
    requires n < 64
    ensures forall c :: 0 <= c < 64 ==> (Mask(n)[c] <==> c < n)
  {
    DecBits(One(n), n);
  }

  // ---- Bitmask ----

  // The words describe the placement p: the columns taken, and the columns of the next row
  // attacked along each kind of diagonal. The left word may carry bits past the board.
  ghost predicate Words(n: nat, p: seq<nat>, cols: Word, ld: Word, rd: Word) {
    && (forall c :: 0 <= c < 64 ==> (cols[c] <==> c in p))
    && (forall c :: 0 <= c < n && c < 64 ==>
          (ld[c] <==> exists i :: 0 <= i < |p| && p[i] + |p| == c + i))
    && (forall c :: 0 <= c < 64 ==>
          (rd[c] <==> exists i :: 0 <= i < |p| && p[i] + i == c + |p|))
  }

  // The columns left after masking are exactly those where the next queen fits.
  lemma AvailableFits(n: nat, p: seq<nat>, cols: Word, ld: Word, rd: Word, c: nat)
    requires n < 64 && Placed(n, p) && Words(n, p, cols, ld, rd) && c < 64
    ensures And(Mask(n), Not(Or(Or(cols, ld), rd)))[c] <==> c < n && Fits(p, c)
  {
    MaskBits(n);
    if c < n {
      if c in p {
        var i :| 0 <= i < |p| && p[i] == c;
      }
      if ld[c] {
        var i :| 0 <= i < |p| && p[i] + |p| == c + i;
      }
      if rd[c] {
        var i :| 0 <= i < |p| && p[i] + i == c + |p|;
      }
    }
  }

  // Placing a queen and shifting the diagonals describes the longer placement.
  lemma WordsPlace(n: nat, p: seq<nat>, cols: Word, ld: Word, rd: Word, col: nat)
    requires n < 64 && Placed(n, p) && Words(n, p, cols, ld, rd) && col < n
    ensures Words(n, p + [col], Or(cols, One(col)), Shl(Or(ld, One(col))), Shr(Or(rd, One(col))))
  {
    var q := p + [col];
    var r := |p|;
    assert q[r] == col && forall i :: 0 <= i < r ==> q[i] == p[i];
    var ld', rd' := Shl(Or(ld, One(col))), Shr(Or(rd, One(col)));
    forall c | 0 <= c < n ensures ld'[c] <==> exists i :: 0 <= i < |q| && q[i] + |q| == c + i {
      if c > 0 && ld[c - 1] {
        var i :| 0 <= i < r && p[i] + r == c - 1 + i;
        assert q[i] + |q| == c + i;
      }
      if c == col + 1 {
        assert q[r] + |q| == c + r;
      }
      if exists i :: 0 <= i < |q| && q[i] + |q| == c + i {
        var i :| 0 <= i < |q| && q[i] + |q| == c + i;
        if i < r {
          assert p[i] + r == c - 1 + i;
        }
      }
    }
    forall c | 0 <= c < 64 ensures rd'[c] <==> exists i :: 0 <= i < |q| && q[i] + i == c + |q| {
      RightWord(n, p, rd, col, c);
    }
  }

  lemma RightWord(n: nat, p: seq<nat>, rd: Word, col: nat, c: nat)
    requires n < 64 && Placed(n, p) && col < n && c < 64
    requires forall c :: 0 <= c < 64 ==>
               (rd[c] <==> exists i :: 0 <= i < |p| && p[i] + i == c + |p|)
    ensures var q := p + [col];
      Shr(Or(rd, One(col)))[c] <==> exists i :: 0 <= i < |q| && q[i] + i == c + |q|
  {
    var q := p + [col];
    var r := |p|;
    assert q[r] == col && forall i :: 0 <= i < r ==> q[i] == p[i];
    var x := Or(rd, One(col));
    var src := if c < 63 then c + 1 else 63;
    assert Shr(x)[c] == x[src];
    if rd[src] {
      var i :| 0 <= i < r && p[i] + i == src + r;
      assert q[i] + i == c + |q|;
    }
    if src == col {
      assert q[r] + r == c + |q|;
    }
    if exists i :: 0 <= i < |q| && q[i] + i == c + |q| {
      var i :| 0 <= i < |q| && q[i] + i == c + |q|;
      if i < r {
        assert p[i] + i == src + r;
      }
    }
  }

  ghost function Taken(p: seq<nat>): (s: set<nat>)
    ensures forall c: nat :: c in s <==> c in p
  {
    if p == [] then {}
    else
      assert p == p[..|p| - 1] + [p[|p| - 1]];
      Taken(p[..|p| - 1]) + {p[|p| - 1]}
  }

  lemma {:induction false} TakenSize(n: nat, p: seq<nat>)
    requires Placed(n, p)
    ensures |Taken(p)| == |p|
  {
    if p != [] {
      var k := |p| - 1;
      var q := p[..k];
      forall i, j | 0 <= i < j < k ensures !Attacks(q, i, j) {
        assert !Attacks(p, i, j);
      }
      TakenSize(n, q);
      if p[k] in q {
        var i :| 0 <= i < k && q[i] == p[k];
        assert Attacks(p, i, k);
      }
    }
  }

  // All columns are taken exactly when every row has its queen.
  lemma FullIs(n: nat, p: seq<nat>, cols: Word, ld: Word, rd: Word)
    requires n < 64 && Placed(n, p) && Words(n, p, cols, ld, rd)
    ensures cols == Mask(n) <==> |p| == n
  {
    hide Mask;
    MaskBits(n);
    TakenSize(n, p);
    var s := Taken(p);
    assert s <= Columns(n);
    if cols == Mask(n) {
      forall c: nat | c in Columns(n) ensures c in s {
        assert cols[c];
      }
      assert s == Columns(n);
    } else if |p| == n {
      Whole(s, Columns(n));
      assert forall c :: 0 <= c < 64 ==> cols[c] == Mask(n)[c];
      SameWords(cols, Mask(n));
    }
  }

  lemma SameWords(x: Word, y: Word)
    requires forall c :: 0 <= c < 64 ==> x[c] == y[c]
    ensures x == y
  {
  }

  lemma Whole(a: set<nat>, b: set<nat>)
    requires a <= b && |a| == |b|
    ensures a == b
  {
    assert b == a + (b - a);
    assert |b - a| == 0;
  }

  // No queen of the next row stands in a column from lo up to c.
  lemma {:induction false} FromSkips(n: nat, p: seq<nat>, lo: nat, c: nat)
    requires Placed(n, p) && |p| < n && lo <= c <= n
    requires forall d :: lo <= d < c ==> !Fits(p, d)
    ensures |From(n, p, lo)| == |From(n, p, c)|
    decreases c - lo
  {
    if lo < c {
      FromSplits(n, p, lo);
      FitsIs(n, p, lo);
      FromAttacked(n, p + [lo]);
      FromSkips(n, p, lo + 1, c);
    }
  }

  // The columns still to try: those from lo on where the queen fits.
  ghost predicate Left(n: nat, p: seq<nat>, available: Word, lo: nat) {
    lo <= n && forall c :: 0 <= c < 64 ==> (available[c] <==> lo <= c < n && Fits(p, c))
  }

  method QueensBitmask(n: nat, ghost p: seq<nat>, mask: Word, cols: Word, ld: Word, rd: Word)
    returns (count: nat)
    requires n < 64 && mask == Mask(n) && Placed(n, p) && Words(n, p, cols, ld, rd)
    ensures count == |From(n, p, 0)|
    decreases n - |p|
  {
    FullIs(n, p, cols, ld, rd);
    if cols == mask {
      FromFull(n, p);
      return 1;
    }
    var available := And(mask, Not(Or(Or(cols, ld), rd)));
    forall c | 0 <= c < 64 ensures available[c] <==> c < n && Fits(p, c) {
      AvailableFits(n, p, cols, ld, rd, c);
    }
    count := 0;
    ghost var lo := 0;
    while available != ZERO
      invariant Left(n, p, available, lo)
      invariant count + |From(n, p, lo)| == |From(n, p, 0)|
      decreases n - lo
    {
      ghost var c := LowestBit(available);
      NextColumn(n, p, available, lo, c);
      var bit := And(available, Neg(available));
      available := And(available, Dec(available));
      WordsPlace(n, p, cols, ld, rd, c);
      var more := QueensBitmask(n, p + [c], mask, Or(cols, bit), Shl(Or(ld, bit)), Shr(Or(rd, bit)));
      count := count + more;
      lo := c + 1;
    }
    FromSkips(n, p, lo, n);
    FromEnd(n, p);
  }

  // Taking the lowest candidate column.
  lemma NextColumn(n: nat, p: seq<nat>, available: Word, lo: nat, c: nat)
    requires Placed(n, p) && |p| < n && Left(n, p, available, lo) && LowestAt(available, c)
    ensures lo <= c < n && Fits(p, c) && Placed(n, p + [c])
    ensures Left(n, p, available[c := false], c + 1)
    ensures |From(n, p, lo)| == |From(n, p + [c], 0)| + |From(n, p, c + 1)|
  {
    forall d | lo <= d < c ensures !Fits(p, d) {
      assert !available[d];
    }
    FromSkips(n, p, lo, c);
    FromSplits(n, p, c);
    FitsIs(n, p, c);
  }

  method CountBitmask(n: nat) returns (count: nat)
    requires n < 64
    ensures count == Solutions(n)
  {
    count := QueensBitmask(n, [], Mask(n), ZERO, ZERO, ZERO);
  }

  // The three counts agree, and count the non-attacking boards.
  method CountsAgree(n: nat) returns (pure: nat, mutable: nat, bits: nat)
    requires 1 <= n <= 63
    ensures pure == mutable == bits == Solutions(n)
  {
    pure := CountPure(n);
    PureIsRight(n);
    mutable := CountMut(n);
    bits := CountBitmask(n);
  }
}
