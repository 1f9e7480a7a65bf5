// Field arithmetic modulo the prime of curve P-256 (appendix D.1.2.3 of FIPS 186-4), over ten
// limbs of 26 bits. A carry chain of the emitted code is a recursion over the limbs.
module P256 {

  const LIMB: nat := 0x400_0000                 // 2^26
  const MASK: nat := LIMB - 1
  const LIMBS: nat := 10

  const P: nat := 0xffffffff00000001000000000000000000000000ffffffffffffffffffffffff
  // The limbs of P, least significant first.
  const PL: seq<nat> := [67108863, 67108863, 67108863, 262143, 0, 0, 0, 1024, 67043328, 4194303]

  const R: nat := 0x1_00000000_00000000_00000000_00000000_00000000_00000000_00000000_00000000_0 // 2^260
  const R9: nat := 0x4_00000000_00000000_00000000_00000000_00000000_00000000_00000000_00 // 2^234
  const R_INV: nat := 0xfffffffe00000003fffffffd0000000200000001fffffffe000000030000000 // 2^-260 mod P

  predicate Canonical(a: seq<nat>) {
    forall i :: 0 <= i < |a| ==> a[i] < LIMB
  }

  // Ten canonical limbs.
  predicate Felem(a: seq<nat>) {
    |a| == LIMBS && Canonical(a)
  }

  // A field element: ten canonical limbs of a value below P.
  ghost predicate Reduced(a: seq<nat>) {
    Felem(a) && Val(a) < P
  }

  ghost function Val(a: seq<nat>): (v: nat) {
    if a == [] then 0 else a[0] + LIMB * Val(a[1..])
  }

  ghost function Pow(n: nat): (v: nat)
    ensures v > 0
  {
    if n == 0 then 1 else LIMB * Pow(n - 1)
  }

  lemma {:induction false} ValBound(a: seq<nat>)
    requires Canonical(a)
    ensures Val(a) < Pow(|a|)
  {
    if a != [] {
      ValBound(a[1..]);
      assert Val(a[1..]) <= Pow(|a| - 1) - 1;
    }
  }

  lemma {:induction false} ValConcat(a: seq<nat>, b: seq<nat>)
    ensures Val(a + b) == Val(a) + Pow(|a|) * Val(b)
  {
    if a == [] {
      assert a + b == b;
    } else {
      assert (a + b)[1..] == a[1..] + b;
      ValConcat(a[1..], b);
      Assoc(LIMB, Pow(|a| - 1), Val(b));
    }
  }

  lemma MulMono(k: nat, y: nat, z: nat)
    requires y <= z
    ensures k * y <= k * z
  {
    assert k * z == k * y + k * (z - y);
  }

  lemma Assoc(x: int, y: int, z: int)
    ensures x * (y * z) == (x * y) * z
  {
  }

  lemma PowTen()
    ensures Pow(10) == R && Pow(9) == R9
  {
    assert Pow(1) == LIMB;
    assert Pow(2) == LIMB * Pow(1);
    assert Pow(3) == LIMB * Pow(2);
    assert Pow(4) == LIMB * Pow(3);
    assert Pow(5) == LIMB * Pow(4);
    assert Pow(6) == LIMB * Pow(5);
    assert Pow(7) == LIMB * Pow(6);
    assert Pow(8) == LIMB * Pow(7);
    assert Pow(9) == LIMB * Pow(8);
    assert Pow(10) == LIMB * Pow(9);
  }

  lemma ValFrom(a: seq<nat>, i: nat)
    requires i < |a|
    ensures Val(a[i..]) == a[i] + LIMB * Val(a[i + 1..])
  {
    assert a[i..][1..] == a[i + 1..];
  }

  // The value of five limbs and of the rest.
  lemma ValFive(a: seq<nat>, i: nat)
    requires i + 5 <= |a|
    ensures Val(a[i..]) == a[i] + LIMB * (a[i + 1] + LIMB * (a[i + 2] + LIMB * (a[i + 3] + LIMB *
                           (a[i + 4] + LIMB * Val(a[i + 5..])))))
  {
    hide Val;
    ValFrom(a, i);
    ValFrom(a, i + 1);
    ValFrom(a, i + 2);
    ValFrom(a, i + 3);
    ValFrom(a, i + 4);
  }

  // The value of ten limbs, high half and low half.
  lemma ValTen(a: seq<nat>, high: nat)
    requires |a| == LIMBS
    requires high == a[5] + LIMB * (a[6] + LIMB * (a[7] + LIMB * (a[8] + LIMB * a[9])))
    ensures Val(a) == a[0] + LIMB * (a[1] + LIMB * (a[2] + LIMB * (a[3] + LIMB *
                      (a[4] + LIMB * high))))
  {
    hide Val;
    ValNone();
    assert a[10..] == [] && a[0..] == a;
    ValFive(a, 0);
    ValFive(a, 5);
  }

  lemma ValOne(x: nat)
    ensures Val([x]) == x
  {
    assert Val([]) == 0;
  }

  lemma PowStep(k: nat)
    requires k > 0
    ensures Pow(k) == LIMB * Pow(k - 1)
  {
  }

  lemma ValNone()
    ensures Val([]) == 0
  {
  }

  lemma PrimeLimbs()
    ensures Felem(PL) && Val(PL) == P
  {
    ValTen(PL, 0x3fffffffc00000004000000000000000);
  }

  // ---- Carry chains ----

  // The words a[i] + k * b[i] that a chain is fed with.
  function Row(a: seq<nat>, b: seq<nat>, k: nat): (xs: seq<nat>)
    requires |a| == |b|
    ensures |xs| == |a|
  {
    seq(|a|, i requires 0 <= i < |a| => a[i] + k * b[i])
  }

  // Limb i is bit_and(xs[i] + carry, MASK), the next carry bit_shr(xs[i] + carry, 26).
  function Carry(xs: seq<nat>, c: nat): (r: (seq<nat>, nat))
    ensures |r.0| == |xs| && Canonical(r.0)
  {
    if xs == [] then ([], c)
    else
      var v := xs[0] + c;
      var rest := Carry(xs[1..], v / LIMB);
      ([v % LIMB] + rest.0, rest.1)
  }

  lemma {:induction false} CarryValue(xs: seq<nat>, c: nat)
    ensures var r := Carry(xs, c); Val(r.0) + Pow(|xs|) * r.1 == Val(xs) + c
  {
    if xs != [] {
      var v := xs[0] + c;
      var rest := Carry(xs[1..], v / LIMB);
      CarryValue(xs[1..], v / LIMB);
      assert ([v % LIMB] + rest.0)[1..] == rest.0;
      Assoc(LIMB, Pow(|xs| - 1), rest.1);
      assert LIMB * (Val(xs[1..]) + v / LIMB) == LIMB * Val(xs[1..]) + LIMB * (v / LIMB);
    }
  }

  lemma {:induction false} RowValue(a: seq<nat>, b: seq<nat>, k: nat)
    requires |a| == |b|
    ensures Val(Row(a, b, k)) == Val(a) + k * Val(b)
  {
    if a != [] {
      RowValue(a[1..], b[1..], k);
      assert Row(a, b, k)[1..] == Row(a[1..], b[1..], k);
      Distribute(k, b[0], Val(b[1..]));
    }
  }

  lemma Distribute(k: nat, x: nat, y: nat)
    ensures k * (x + LIMB * y) == k * x + LIMB * (k * y)
  {
  }

  // No word of a chain of limb products reaches 2^52, so none leaves a 64-bit integer.
  lemma {:induction false} CarryFits(a: seq<nat>, b: seq<nat>, k: nat, c: nat)
    requires |a| == |b| && Canonical(a) && Canonical(b) && k < LIMB && c < LIMB
    ensures forall i :: 0 <= i < |a| ==> ChainWord(Row(a, b, k), c, i) < LIMB * LIMB
    ensures Carry(Row(a, b, k), c).1 < LIMB
  {
    if a != [] {
      var xs := Row(a, b, k);
      var v := xs[0] + c;
      ProductFits(a[0], b[0], k, c);
      assert xs[1..] == Row(a[1..], b[1..], k);
      CarryFits(a[1..], b[1..], k, v / LIMB);
      forall i | 0 <= i < |a| ensures ChainWord(xs, c, i) < LIMB * LIMB {
        if i > 0 {
          assert ChainWord(xs, c, i) == ChainWord(xs[1..], v / LIMB, i - 1);
        }
      }
    }
  }

  // The word v_i of the chain, before it is split.
  function ChainWord(xs: seq<nat>, c: nat, i: nat): nat
    requires i < |xs|
  {
    if i == 0 then xs[0] + c else ChainWord(xs[1..], (xs[0] + c) / LIMB, i - 1)
  }

  lemma ProductFits(x: nat, y: nat, k: nat, c: nat)
    requires x < LIMB && y < LIMB && k < LIMB && c < LIMB
    ensures x + k * y + c < LIMB * LIMB && (x + k * y + c) / LIMB < LIMB
  {
    Monotone(k, y);
  }

  lemma Monotone(k: nat, y: nat)
    requires y <= MASK && k <= MASK
    ensures k * y <= MASK * MASK
  {
    MulMono(k, y, MASK);
    MulMono(MASK, k, MASK);
  }

  // ---- cios_step ----

  // t := (t + a * bi + m * p) / 2^26, with m the low limb after the first chain.
  function CiosStep(t: seq<nat>, a: seq<nat>, bi: nat): (r: seq<nat>)
    requires |t| == LIMBS && |a| == LIMBS
    ensures |r| == LIMBS
  {
    var (u, c) := Carry(Row(t, a, bi), 0);
    var (w, d) := Carry(Row(u, PL, u[0]), 0);
    w[1..] + [c + d]
  }

  // The low limb of the second chain vanishes: P is -1 modulo 2^26, so m cancels it.
  lemma LowLimb(u: seq<nat>)
    requires Felem(u)
    ensures Carry(Row(u, PL, u[0]), 0).0[0] == 0
  {
    assert Row(u, PL, u[0])[0] == u[0] + u[0] * 67108863 == u[0] * LIMB;
    assert (u[0] * LIMB) % LIMB == 0;
  }

  // The first chain is t + a * bi, the second adds m * p to its low part.
  lemma CiosChains(t: seq<nat>, a: seq<nat>, bi: nat)
    requires |t| == LIMBS && |a| == LIMBS
    ensures var (u, c) := Carry(Row(t, a, bi), 0);
      var (w, d) := Carry(Row(u, PL, u[0]), 0);
      && Val(u) + R * c == Val(t) + bi * Val(a)
      && Val(w) + R * d == Val(u) + u[0] * P
      && w[0] == 0 && u[0] < LIMB
  {
    hide Val, Pow, Carry, Row;
    var (u, c) := Carry(Row(t, a, bi), 0);
    RowValue(t, a, bi);
    CarryValue(Row(t, a, bi), 0);
    PrimeLimbs();
    RowValue(u, PL, u[0]);
    CarryValue(Row(u, PL, u[0]), 0);
    LowLimb(u);
    PowTen();
  }

  // Every word of both chains of a step stays below 2^52.
  lemma CiosFits(t: seq<nat>, a: seq<nat>, bi: nat)
    requires Felem(t) && Felem(a) && bi < LIMB
    ensures var (u, c) := Carry(Row(t, a, bi), 0);
      forall i :: 0 <= i < LIMBS ==>
        && ChainWord(Row(t, a, bi), 0, i) < 0x10_0000_0000_0000
        && ChainWord(Row(u, PL, u[0]), 0, i) < 0x10_0000_0000_0000
  {
    hide Val, Carry, ChainWord;
    PrimeLimbs();
    CarryFits(t, a, bi, 0);
    var (u, c) := Carry(Row(t, a, bi), 0);
    CarryFits(u, PL, u[0], 0);
  }

  lemma Shifted(w: seq<nat>, top: nat)
    requires |w| == LIMBS && w[0] == 0
    ensures Val(w) == LIMB * Val(w[1..])
    ensures Val(w[1..] + [top]) == Val(w[1..]) + (R9) * top
  {
    hide Val, Pow;
    ValConcat(w[1..], [top]);
    ValOne(top);
    PowTen();
    ValFrom(w, 0);
    assert w[0..] == w;
  }

  lemma CiosValue(t: seq<nat>, a: seq<nat>, bi: nat)
    requires |t| == LIMBS && |a| == LIMBS
    ensures var m := Carry(Row(t, a, bi), 0).0[0];
      m < LIMB && LIMB * Val(CiosStep(t, a, bi)) == Val(t) + bi * Val(a) + m * P
  {
    hide Val, Carry, Row, Canonical;
    var (u, c) := Carry(Row(t, a, bi), 0);
    var (w, d) := Carry(Row(u, PL, u[0]), 0);
    assert CiosStep(t, a, bi) == w[1..] + [c + d];
    CiosChains(t, a, bi);
    hide CiosStep;
    CiosSum(Val(t) + bi * Val(a), Val(u), c, u[0], w, d);
  }

  // The two chains put together.
  lemma CiosSum(sum: nat, u: nat, c: nat, m: nat, w: seq<nat>, d: nat)
    requires u + R * c == sum && Val(w) + R * d == u + m * P && |w| == LIMBS && w[0] == 0
    ensures LIMB * Val(w[1..] + [c + d]) == sum + m * P
  {
    hide Val;
    Shifted(w, c + d);
  }

  // From t below 2p a step stays below 2p, with canonical limbs.
  lemma CiosBound(t: seq<nat>, a: seq<nat>, bi: nat)
    requires Felem(t) && Val(t) < 2 * P && Reduced(a) && bi < LIMB
    ensures Felem(CiosStep(t, a, bi)) && Val(CiosStep(t, a, bi)) < 2 * P
  {
    hide Val, Carry, Row;
    CiosValue(t, a, bi);
    var m := Carry(Row(t, a, bi), 0).0[0];
    var r := CiosStep(t, a, bi);
    Scaled(bi, Val(a));
    BoundSum(Val(t), bi * Val(a), m, Val(r));
    TopLimb(r);
  }

  lemma Scaled(k: nat, a: nat)
    requires k <= MASK && a <= P
    ensures k * a <= MASK * P
  {
    MulMono(k, a, P);
    MulMono(P, k, MASK);
  }

  lemma BoundSum(t: nat, x: nat, m: nat, r: nat)
    requires LIMB * r == t + x + m * P && t < 2 * P && x <= MASK * P && m <= MASK
    ensures r < 2 * P
  {
    MulMono(P, m, MASK);
  }

  // A top limb that made the value too large would show in the value.
  lemma TopLimb(r: seq<nat>)
    requires |r| == LIMBS && Canonical(r[..9]) && Val(r) < 2 * P
    ensures Canonical(r)
  {
    assert r == r[..9] + [r[9]];
    ValConcat(r[..9], [r[9]]);
    assert Val([r[9]]) == r[9];
    PowTen();
  }

  // ---- mont_mul ----

  // The accumulator after the first k limbs of b.
  function Passes(a: seq<nat>, b: seq<nat>, k: nat): (t: seq<nat>)
    requires |a| == LIMBS && |b| == LIMBS && k <= LIMBS
    ensures |t| == LIMBS
  {
    if k == 0 then [0, 0, 0, 0, 0, 0, 0, 0, 0, 0]
    else CiosStep(Passes(a, b, k - 1), a, b[k - 1])
  }

  function MontMul(a: seq<nat>, b: seq<nat>): (r: seq<nat>)
    requires |a| == LIMBS && |b| == LIMBS
    ensures |r| == LIMBS
  {
    SubPIfGe(Passes(a, b, LIMBS))
  }

  // The loop invariant: 2^(26k) * t is a * (b mod 2^(26k)) up to a multiple of p.
  lemma {:induction false} PassesInvariant(a: seq<nat>, b: seq<nat>, k: nat) returns (q: nat)
    requires Reduced(a) && Felem(b) && k <= LIMBS
    ensures var t := Passes(a, b, k);
      && Felem(t) && Val(t) < 2 * P
      && Pow(k) * Val(t) == Val(a) * Val(b[..k]) + q * P
  {
    hide Val, Pow, Carry, Row, CiosStep;
    if k == 0 {
      q := 0;
      ValTen(Passes(a, b, 0), 0);
      ValNone();
      assert b[..0] == [];
    } else {
      var q' := PassesInvariant(a, b, k - 1);
      var t := Passes(a, b, k - 1);
      CiosBound(t, a, b[k - 1]);
      CiosValue(t, a, b[k - 1]);
      var m := Carry(Row(t, a, b[k - 1]), 0).0[0];
      assert b[..k] == b[..k - 1] + [b[k - 1]];
      ValConcat(b[..k - 1], [b[k - 1]]);
      ValOne(b[k - 1]);
      PowStep(k);
      q := q' + Pow(k - 1) * m;
      PassSum(Pow(k - 1), Val(t), Val(CiosStep(t, a, b[k - 1])), Val(a), Val(b[..k - 1]), b[k - 1],
              m, q');
    }
  }

  lemma PassSum(w: nat, t: nat, t': nat, a: nat, low: nat, bi: nat, m: nat, q: nat)
    requires LIMB * t' == t + bi * a + m * P
    requires w * t == a * low + q * P
    ensures (LIMB * w) * t' == a * (low + w * bi) + (q + w * m) * P
  {
    calc {
      (LIMB * w) * t';
      w * (LIMB * t');
      w * (t + bi * a + m * P);
      w * t + w * (bi * a) + w * (m * P);
      a * low + q * P + a * (w * bi) + (w * m) * P;
      a * (low + w * bi) + (q + w * m) * P;
    }
  }

  // mont_mul of canonical operands is the canonical a * b * 2^-260 modulo p.
  lemma MontMulCorrect(a: seq<nat>, b: seq<nat>)
    requires Reduced(a) && Reduced(b)
    ensures Reduced(MontMul(a, b))
    ensures Val(MontMul(a, b)) == (Val(a) * Val(b) * R_INV) % P
    ensures (Val(MontMul(a, b)) * R) % P == (Val(a) * Val(b)) % P
  {
    hide Val, Pow, Carry, Row, Passes, SubPIfGe;
    var q := PassesInvariant(a, b, LIMBS);
    var t := Passes(a, b, LIMBS);
    assert b[..LIMBS] == b;
    PowTen();
    SubPIfGeCorrect(t);
    Dividing(Val(t), Val(a) * Val(b), q);
  }

  // What 2^260 * t == ab + q*p says of t modulo p.
  lemma Dividing(t: nat, ab: nat, q: nat)
    requires R * t == ab + q * P
    ensures t % P == (ab * R_INV) % P
    ensures ((t % P) * R) % P == ab % P
  {
    assert R * R_INV == 1 + J * P;
    var z := q * R_INV;
    assert ab * R_INV == t + P * (t * J - z);
    Multiple(t, t * J - z);
    var k := t / P;
    assert t % P == t - k * P;
    assert (t % P) * R == ab + P * (q - k * R);
    Multiple(ab, q - k * R);
  }

  lemma Multiple(x: int, k: int)
    ensures (x + P * k) % P == x % P
  {
  }

  // ---- sub_p_if_ge, felem_add, felem_sub ----

  // Limb i is bit_and(a[i] - b[i] - borrow, MASK); the next borrow is the sign bit.
  function Borrow(a: seq<nat>, b: seq<nat>, k: nat): (r: (seq<nat>, nat))
    requires |a| == |b|
    ensures |r.0| == |a| && Canonical(r.0)
    ensures k <= 1 ==> r.1 <= 1
  {
    if a == [] then ([], k)
    else
      var s := a[0] - b[0] - k;
      var rest := Borrow(a[1..], b[1..], if s < 0 then 1 else 0);
      ([s % LIMB] + rest.0, rest.1)
  }

  lemma {:induction false} BorrowValue(a: seq<nat>, b: seq<nat>, k: nat)
    requires |a| == |b| && Canonical(a) && Canonical(b) && k <= 1
    ensures var r := Borrow(a, b, k); Val(r.0) - Pow(|a|) * r.1 == Val(a) - Val(b) - k
  {
    if a != [] {
      var s := a[0] - b[0] - k;
      var k' := if s < 0 then 1 else 0;
      var rest := Borrow(a[1..], b[1..], k');
      BorrowValue(a[1..], b[1..], k');
      assert ([s % LIMB] + rest.0)[1..] == rest.0;
      Assoc(LIMB, Pow(|a| - 1), rest.1);
      hide Val, Pow;
      BorrowStep(s, k', Val(rest.0), Pow(|a| - 1) * rest.1, Val(a[1..]), Val(b[1..]));
    }
  }

  lemma BorrowStep(s: int, k: nat, r: nat, top: nat, a: nat, b: nat)
    requires 0 <= s + LIMB && s < LIMB && k == (if s < 0 then 1 else 0)
    requires r - top == a - b - k
    ensures s % LIMB + LIMB * r - LIMB * top == s + LIMB * a - LIMB * b
  {
  }

  function SubPIfGe(a: seq<nat>): (r: seq<nat>)
    requires |a| == LIMBS
    ensures |r| == LIMBS
  {
    var (d, borrow) := Borrow(a, PL, 0);
    if borrow == 1 then a else d
  }

  lemma SubPIfGeCorrect(a: seq<nat>)
    requires Felem(a) && Val(a) < 2 * P
    ensures Reduced(SubPIfGe(a)) && Val(SubPIfGe(a)) == Val(a) % P
  {
    hide Val, Borrow, Pow;
    PrimeLimbs();
    BorrowValue(a, PL, 0);
    PowTen();
    var (d, borrow) := Borrow(a, PL, 0);
    ValBound(d);
    Once(Val(a), Val(d), borrow);
  }

  // One subtraction is the reduction of a value below 2p.
  lemma Once(a: nat, d: nat, borrow: nat)
    requires a < 2 * P && d < R && borrow <= 1 && d - R * borrow == a - P
    ensures (if borrow == 1 then a else d) == a % P
  {
    if borrow == 1 {
      assert a < P;
    } else {
      assert d == a - P;
    }
  }

  // The carry out of the top limb is not computed, as in the emitted code.
  function Add(a: seq<nat>, b: seq<nat>): (r: seq<nat>)
    requires |a| == LIMBS && |b| == LIMBS
    ensures |r| == LIMBS
  {
    SubPIfGe(Carry(Row(a, b, 1), 0).0)
  }

  lemma AddCorrect(a: seq<nat>, b: seq<nat>)
    requires Reduced(a) && Reduced(b)
    ensures Reduced(Add(a, b)) && Val(Add(a, b)) == (Val(a) + Val(b)) % P
    ensures Carry(Row(a, b, 1), 0).1 == 0
  {
    hide Val, Carry, Row, Pow, SubPIfGe;
    RowValue(a, b, 1);
    CarryValue(Row(a, b, 1), 0);
    PowTen();
    SubPIfGeCorrect(Carry(Row(a, b, 1), 0).0);
  }

  function Sub(a: seq<nat>, b: seq<nat>): (r: seq<nat>)
    requires |a| == LIMBS && |b| == LIMBS
    ensures |r| == LIMBS
  {
    var (d, k) := Borrow(a, b, 0);
    Carry(Row(d, PL, k), 0).0
  }

  // The dropped carry is exactly the 2^260 that the borrow put in.
  lemma SubCorrect(a: seq<nat>, b: seq<nat>)
    requires Reduced(a) && Reduced(b)
    ensures Reduced(Sub(a, b)) && Val(Sub(a, b)) == (Val(a) - Val(b)) % P
    ensures var (d, k) := Borrow(a, b, 0); Carry(Row(d, PL, k), 0).1 == k
  {
    hide Val, Borrow, Pow, Carry, Row;
    var (d, k) := Borrow(a, b, 0);
    BorrowValue(a, b, 0);
    PrimeLimbs();
    RowValue(d, PL, k);
    CarryValue(Row(d, PL, k), 0);
    PowTen();
    ValBound(d);
    ValBound(Sub(a, b));
    SubSum(Val(a), Val(b), Val(d), k, Val(Sub(a, b)), Carry(Row(d, PL, k), 0).1);
  }

  // The two chains put together.
  lemma SubSum(a: nat, b: nat, d: nat, k: nat, r: nat, c: nat)
    requires a < P && b < P && k <= 1 && d < R && r < R
    requires d - R * k == a - b && r + R * c == d + k * P
    ensures r == (a - b) % P && r < P && c == k
  {
    if k == 0 {
      assert a >= b && c == 0;
    } else {
      assert a < b && c == 1;
      assert r == a - b + P;
    }
  }

  // ---- Montgomery form ----

  // felem_r2 and felem_one of the emitted constants.
  const R2: seq<nat> := [768, 0, 66060288, 67108863, 67108859, 67108799, 67108863, 66584575,
                         16777215, 1]
  const ONE: seq<nat> := [1, 0, 0, 0, 0, 0, 0, 0, 0, 0]

  lemma SquareConstant()
    ensures Reduced(R2) && Val(R2) == (R * R) % P
  {
    ValTen(R2, 0x13fffffff7fffffffffffffffbf);
    hide Val;
    assert R * R ==
             0x4fffffffdfffffffffffffffefffffffbffffffff000000000000000300
             + 0x100000000fffffffffffffffefffffffefffffffeffffffff000000000000000300 * P;
  }

  lemma UnitConstant()
    ensures Reduced(ONE) && Val(ONE) == 1
  {
    ValTen(ONE, 0);
  }

  function ToMont(a: seq<nat>): (r: seq<nat>)
    requires |a| == LIMBS
    ensures |r| == LIMBS
  {
    MontMul(a, R2)
  }

  function FromMont(a: seq<nat>): (r: seq<nat>)
    requires |a| == LIMBS
    ensures |r| == LIMBS
  {
    MontMul(a, ONE)
  }

  lemma {:induction false} ValInjective(a: seq<nat>, b: seq<nat>)
    requires |a| == |b| && Canonical(a) && Canonical(b) && Val(a) == Val(b)
    ensures a == b
  {
    if a != [] {
      assert Val(a) % LIMB == a[0] && Val(b) % LIMB == b[0];
      ValInjective(a[1..], b[1..]);
    }
  }

  // ---- Arithmetic modulo any p, with r * ri == 1 modulo p ----

  lemma ModUnique(z: int, p: nat, m: int, r: nat)
    requires z == p * m + r && r < p
    ensures z % p == r
  {
    var d := z / p - m;
    assert p * d == r - z % p by {
      assert z == p * (z / p) + z % p;
    }
    Spread(p, d);
  }

  lemma Spread(p: int, d: int)
    ensures p > 0 && d > 0 ==> p * d >= p
    ensures p > 0 && d < 0 ==> p * d <= 0 - p
  {
  }

  lemma ModMultiple(x: int, k: int, p: nat)
    requires p > 0
    ensures (x + p * k) % p == x % p
  {
    assert x + p * k == p * (x / p + k) + x % p by {
      assert x == p * (x / p) + x % p;
    }
    ModUnique(x + p * k, p, x / p + k, x % p);
  }

  lemma ModMul(x: int, y: int, p: nat)
    requires p > 0
    ensures ((x % p) * y) % p == (x * y) % p
  {
    var q := x / p;
    assert x == x % p + p * q;
    assert x * y == (x % p) * y + p * (q * y);
    ModMultiple((x % p) * y, q * y, p);
  }

  lemma ModCancel(x: int, r: nat, ri: nat, j: nat, p: nat)
    requires p > 0 && r * ri == 1 + j * p
    ensures (x * (r * ri)) % p == x % p
  {
    assert x * (1 + j * p) == x + p * (x * j);
    ModMultiple(x, x * j, p);
  }

  // The product of two Montgomery forms, divided by r once.
  lemma ModProduct(a: nat, b: nat, r: nat, ri: nat, j: nat, p: nat)
    requires p > 0 && r * ri == 1 + j * p
    ensures (((a * r) % p) * ((b * r) % p) * ri) % p == (((a * b) % p) * r) % p
  {
    var x, y, z := a * r, b * r, a * b;
    var y' := y % p;
    ModMul(x, y' * ri, p);
    assert (x % p) * (y' * ri) == (x % p) * y' * ri;
    ModMul(y, x * ri, p);
    assert x * (y' * ri) == y' * (x * ri);
    assert y * (x * ri) == (z * r) * (r * ri) by {
      assert y * (x * ri) == (b * r) * ((a * r) * ri);
    }
    ModCancel(z * r, r, ri, j, p);
    ModMul(z, r, p);
  }

  const J: nat := 0xffffffff00000002000000000000000000000001000000000000000000000001

  lemma Inverse()
    ensures R * R_INV == 1 + J * P
  {
  }

  // Entering Montgomery form multiplies by 2^260.
  lemma ToMontCorrect(a: seq<nat>)
    requires Reduced(a)
    ensures Reduced(ToMont(a)) && Val(ToMont(a)) == (Val(a) * R) % P
  {
    hide Val, MontMul;
    SquareConstant();
    MontMulCorrect(a, R2);
    Inverse();
    Entering(Val(a), Val(R2), R, R_INV, J, P);
  }

  lemma Entering(a: nat, r2: nat, r: nat, ri: nat, j: nat, p: nat)
    requires p > 0 && r * ri == 1 + j * p && r2 == (r * r) % p
    ensures (a * r2 * ri) % p == (a * r) % p
  {
    ModMul(r * r, a * ri, p);
    assert a * r2 * ri == r2 * (a * ri);
    assert (r * r) * (a * ri) == (a * r) * (r * ri);
    ModCancel(a * r, r, ri, j, p);
  }

  // Leaving it undoes that.
  lemma MontRoundTrip(a: seq<nat>)
    requires Reduced(a)
    ensures FromMont(ToMont(a)) == a
  {
    hide Val, MontMul;
    ToMontCorrect(a);
    UnitConstant();
    var m := ToMont(a);
    MontMulCorrect(m, ONE);
    Inverse();
    Leaving(Val(a), R, R_INV, J, P);
    assert Val(m) * 1 == Val(m);
    ValInjective(FromMont(m), a);
  }

  lemma Leaving(a: nat, r: nat, ri: nat, j: nat, p: nat)
    requires p > 0 && r * ri == 1 + j * p && a < p
    ensures (((a * r) % p) * ri) % p == a
  {
    ModMul(a * r, ri, p);
    assert (a * r) * ri == a * (r * ri);
    ModCancel(a, r, ri, j, p);
    ModUnique(a, p, 0, a);
  }

  // A product of Montgomery forms is the Montgomery form of the product.
  lemma MontProduct(a: seq<nat>, b: seq<nat>, z: seq<nat>)
    requires Reduced(a) && Reduced(b) && Reduced(z) && Val(z) == (Val(a) * Val(b)) % P
    ensures MontMul(ToMont(a), ToMont(b)) == ToMont(z)
  {
    hide Val, MontMul;
    ToMontCorrect(a);
    ToMontCorrect(b);
    ToMontCorrect(z);
    MontMulCorrect(ToMont(a), ToMont(b));
    Inverse();
    ModProduct(Val(a), Val(b), R, R_INV, J, P);
    ValInjective(MontMul(ToMont(a), ToMont(b)), ToMont(z));
  }
}
