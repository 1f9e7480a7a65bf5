// The 64-bit operations of the emitted field arithmetic, and the integer operations with 2^26 that
// module P256 states it with.
module LimbWords {
  import P = P256

  // bit_and(v, 2^26 - 1). The operations are functions so that their bits can be hidden where
  // only their values matter.
  function Low(v: bv64): bv64 {
    v & 0x3ff_ffff
  }

  // bit_shr(v, 26), for a word that is not negative.
  function High(v: bv64): bv64 {
    v >> 26
  }

  // bit_and(bit_shr_zf(v, 63), 1).
  function Sign(v: bv64): bv64 {
    (v >> 63) & 1
  }

  // The two's complement word of w - 2^26.
  function Lowered(w: bv64): bv64 {
    w - 0x400_0000
  }

  // ---- A word is its high and its low part ----

  function Join(q: bv38, r: bv26): bv64 {
    ((q as bv64) << 26) | (r as bv64)
  }

  lemma JoinIs(q: bv38, r: bv26)
    ensures Join(q, r) == ((q as bv64) << 26) | (r as bv64)
  {
  }

  lemma JoinedValue(q: bv38, r: bv26)
    ensures (((q as bv64) << 26) | (r as bv64)) as int == (q as int) * 0x400_0000 + (r as int)
  {
  }

  lemma Joined(q: bv38, r: bv26)
    ensures Join(q, r) as int == (q as int) * 0x400_0000 + (r as int)
  {
    hide Join;
    JoinIs(q, r);
    JoinedValue(q, r);
  }

  lemma Widened(q: bv38, r: bv26)
    ensures (q as bv64) as int == q as int && (r as bv64) as int == r as int
    ensures (r as int) < 0x400_0000
  {
  }

  lemma PartsFit(v: bv64)
    ensures v >> 26 <= 0x3f_ffff_ffff && v & 0x3ff_ffff <= 0x3ff_ffff
  {
  }

  function HighPart(v: bv64): bv38 {
    PartsFit(v);
    (v >> 26) as bv38
  }

  function LowPart(v: bv64): bv26 {
    PartsFit(v);
    (v & 0x3ff_ffff) as bv26
  }

  lemma Parts(v: bv64)
    ensures HighPart(v) as bv64 == High(v) && LowPart(v) as bv64 == Low(v)
    ensures Join(HighPart(v), LowPart(v)) == v
  {
  }

  // ---- The mask and the shift ----

  lemma QuotientIs(v: nat, q: nat, r: nat)
    requires v == q * 0x400_0000 + r && r < 0x400_0000
    ensures v % 0x400_0000 == r && v / 0x400_0000 == q
  {
  }

  lemma FromParts(v: bv64, q: bv38, r: bv26)
    requires Join(q, r) == v
    ensures (v as int) % 0x400_0000 == r as int && (v as int) / 0x400_0000 == q as int
  {
    hide Join;
    Joined(q, r);
    Widened(q, r);
    QuotientIs(v as int, q as int, r as int);
  }

  // The mask is the remainder and the shift the quotient that a carry chain takes of its words.
  lemma LimbBits(v: bv64)
    ensures Low(v) as int == (v as int) % 0x400_0000
    ensures High(v) as int == (v as int) / 0x400_0000
  {
    hide Low, High, Join, HighPart, LowPart;
    Parts(v);
    Widened(HighPart(v), LowPart(v));
    FromParts(v, HighPart(v), LowPart(v));
  }

  // ---- The borrow ----

  lemma Compared(w: bv64)
    ensures w < 0x400_0000 <==> (w as int) < 0x400_0000
    ensures w < 0x800_0000 <==> (w as int) < 0x800_0000
  {
  }

  lemma LoweredWord(w: bv64)
    requires w < 0x800_0000
    ensures Sign(Lowered(w)) == (if w < 0x400_0000 then 1 else 0)
    ensures Low(Lowered(w)) == Low(w)
  {
  }

  lemma Raised(s: int)
    ensures (s + 0x400_0000) % 0x400_0000 == s % 0x400_0000
  {
  }

  // For the word of a difference s of two limbs and a borrow, the sign bit is the test s < 0 and
  // the mask the remainder that a borrow chain takes.
  lemma BorrowBits(s: int, w: bv64)
    requires -0x400_0000 <= s < 0x400_0000 && w as int == s + 0x400_0000
    ensures Sign(Lowered(w)) == (if s < 0 then 1 else 0)
    ensures Low(Lowered(w)) as int == s % 0x400_0000
  {
    hide Low, High, Sign, Lowered;
    Compared(w);
    LoweredWord(w);
    LimbBits(w);
    Raised(s);
  }

  // ---- The chains ----

  const WORD: nat := 0x1_0000_0000_0000_0000   // 2^64

  function Value(v: bv64): nat { v as nat }

  lemma ValueBits(v: bv64)
    ensures Value(Low(v)) == Value(v) % P.LIMB && Value(High(v)) == Value(v) / P.LIMB
  {
    hide Low, High;
    LimbBits(v);
  }

  // The words of a carry chain: each is the low 64 bits of its term and of what was shifted out of
  // the word before.
  ghost predicate SumWords(xs: seq<nat>, vs: seq<bv64>, c: nat) {
    && |vs| == |xs|
    && (xs != [] ==>
          Value(vs[0]) == (xs[0] + c) % WORD && SumWords(xs[1..], vs[1..], Value(High(vs[0]))))
  }

  function Masks(vs: seq<bv64>): (r: seq<nat>)
    ensures |r| == |vs|
  {
    if vs == [] then [] else [Value(Low(vs[0]))] + Masks(vs[1..])
  }

  lemma WordLimb(v: bv64, n: nat)
    requires Value(v) == n % WORD && n < WORD
    ensures Value(Low(v)) == n % P.LIMB && Value(High(v)) == n / P.LIMB
  {
    hide Low, High, Value;
    ValueBits(v);
  }

  // While no sum of a chain leaves 64 bits, its masks are the limbs and its last shift the carry.
  lemma {:induction false} CarryBits(xs: seq<nat>, vs: seq<bv64>, c: nat)
    requires SumWords(xs, vs, c)
    requires forall i :: 0 <= i < |xs| ==> P.ChainWord(xs, c, i) < WORD
    ensures Masks(vs) == P.Carry(xs, c).0
    ensures xs != [] ==> Value(High(vs[|vs| - 1])) == P.Carry(xs, c).1
  {
    hide Low, High, Value, P.ChainWord;
    if xs != [] {
      var c' := Value(High(vs[0]));
      TailFits(xs, c, c');
      WordLimb(vs[0], xs[0] + c);
      CarryBits(xs[1..], vs[1..], c');
    }
  }

  lemma TailFits(xs: seq<nat>, c: nat, c': nat)
    requires xs != [] && forall i :: 0 <= i < |xs| ==> P.ChainWord(xs, c, i) < WORD
    ensures xs[0] + c < WORD
    ensures c' == (xs[0] + c) / P.LIMB ==>
              forall i :: 0 <= i < |xs[1..]| ==> P.ChainWord(xs[1..], c', i) < WORD
  {
    assert P.ChainWord(xs, c, 0) == xs[0] + c;
    if c' == (xs[0] + c) / P.LIMB {
      forall i | 0 <= i < |xs[1..]| ensures P.ChainWord(xs[1..], c', i) < WORD {
        assert P.ChainWord(xs, c, i + 1) < WORD;
      }
    }
  }

  // The words of both chains of a step give the step: its limbs are the masks after the first, and
  // its top limb the sum of the two last shifts.
  lemma CiosBits(t: seq<nat>, a: seq<nat>, bi: nat, vs: seq<bv64>, ws: seq<bv64>)
    requires P.Felem(t) && P.Felem(a) && bi < P.LIMB && |vs| == P.LIMBS
    requires SumWords(P.Row(t, a, bi), vs, 0)
    requires SumWords(P.Row(Masks(vs), P.PL, Masks(vs)[0]), ws, 0)
    ensures |ws| == P.LIMBS
    ensures P.CiosStep(t, a, bi)
         == Masks(ws)[1..] + [Value(High(vs[P.LIMBS - 1])) + Value(High(ws[P.LIMBS - 1]))]
  {
    hide P.Carry, P.Row, P.ChainWord, SumWords, Masks, High, Value;
    P.CiosFits(t, a, bi);
    CarryBits(P.Row(t, a, bi), vs, 0);
    CarryBits(P.Row(Masks(vs), P.PL, Masks(vs)[0]), ws, 0);
  }

  // The words of a borrow chain: each is the difference of two limbs and the sign bit of the word
  // before, here with 2^26 added so that it is not negative.
  ghost predicate DifferenceWords(a: seq<nat>, b: seq<nat>, ws: seq<bv64>, k: nat)
    requires |a| == |b|
  {
    && |ws| == |a|
    && (a != [] ==>
          && Value(ws[0]) == a[0] - b[0] - k + 0x400_0000
          && DifferenceWords(a[1..], b[1..], ws[1..], Value(Sign(Lowered(ws[0])))))
  }

  function LoweredMasks(ws: seq<bv64>): (r: seq<nat>)
    ensures |r| == |ws|
  {
    if ws == [] then [] else [Value(Low(Lowered(ws[0])))] + LoweredMasks(ws[1..])
  }

  lemma DifferenceBits(s: int, w: bv64)
    requires -0x400_0000 <= s < 0x400_0000 && Value(w) == s + 0x400_0000
    ensures Value(Sign(Lowered(w))) == if s < 0 then 1 else 0
    ensures Value(Low(Lowered(w))) == s % P.LIMB
  {
    hide Low, Sign, Lowered;
    BorrowBits(s, w);
  }

  // The masks of a borrow chain are the limbs and its last sign bit the borrow.
  lemma {:induction false} BorrowChain(a: seq<nat>, b: seq<nat>, ws: seq<bv64>, k: nat)
    requires |a| == |b| && P.Canonical(a) && P.Canonical(b) && k <= 1
    requires DifferenceWords(a, b, ws, k)
    ensures LoweredMasks(ws) == P.Borrow(a, b, k).0
    ensures a != [] ==> Value(Sign(Lowered(ws[|ws| - 1]))) == P.Borrow(a, b, k).1
  {
    hide Low, Sign, Lowered, Value;
    if a != [] {
      DifferenceBits(a[0] - b[0] - k, ws[0]);
      BorrowChain(a[1..], b[1..], ws[1..], if a[0] - b[0] - k < 0 then 1 else 0);
    }
  }
}
