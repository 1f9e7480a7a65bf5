// The plain-text test on a column's bytes, against the encoding of section 3 of RFC 3629.
module Utf8 {

  type Byte = b: int | 0 <= b < 256

  // The code points a text may hold: all but NUL, the surrogates and those above U+10FFFF.
  predicate IsScalar(c: int) {
    1 <= c <= 0x10FFFF && !(0xD800 <= c <= 0xDFFF)
  }

  // The continuation byte that carries the low six bits of c.
  function Tail(c: nat): Byte { 0x80 + c % 64 }

  // The bytes of one character: the bits of c spread over one to four bytes.
  function Encode(c: int): (r: seq<Byte>)
    requires IsScalar(c)
    ensures 1 <= |r| <= 4
  {
    if c < 0x80 then [c]
    else if c < 0x800 then [0xC0 + c / 64, Tail(c)]
    else if c < 0x1_0000 then [0xE0 + c / 4096, Tail(c / 64), Tail(c)]
    else [0xF0 + c / 262144, Tail(c / 4096), Tail(c / 64), Tail(c)]
  }

  ghost predicate Scalars(cs: seq<int>) {
    forall i :: 0 <= i < |cs| ==> IsScalar(cs[i])
  }

  function Encoded(cs: seq<int>): seq<Byte>
    requires Scalars(cs)
  {
    if cs == [] then [] else Encode(cs[0]) + Encoded(cs[1..])
  }

  // s is the encoding of some text.
  ghost predicate IsText(s: seq<Byte>) {
    exists cs :: Scalars(cs) && Encoded(cs) == s
  }

  // ---- Bytes as numbers, and bit masks ----

  function Octets(s: seq<bv8>): (r: seq<Byte>)
    ensures |r| == |s| && forall i :: 0 <= i < |s| ==> r[i] == s[i] as int
  {
    seq(|s|, i requires 0 <= i < |s| => s[i] as Byte)
  }

  lemma Masked(b: bv8)
    ensures b & 0xC0 == 0x80 <==> 0x80 <= b as int < 0xC0
    ensures b & 0xE0 == 0xC0 <==> 0xC0 <= b as int < 0xE0
    ensures b & 0xF0 == 0xE0 <==> 0xE0 <= b as int < 0xF0
    ensures b & 0xF8 == 0xF0 <==> 0xF0 <= b as int < 0xF8
  {
  }

  // ---- The first character ----

  // What k bytes at the head of s spell.
  function Value(s: seq<Byte>, k: nat): int
    requires 1 <= k <= 4 && k <= |s|
  {
    var a: int := s[0];
    if k == 1 then a else
    var b: int := s[1];
    if k == 2 then (a - 0xC0) * 64 + (b - 0x80) else
    var c: int := s[2];
    if k == 3 then (a - 0xE0) * 4096 + (b - 0x80) * 64 + (c - 0x80) else
    var d: int := s[3];
    (a - 0xF0) * 262144 + (b - 0x80) * 4096 + (c - 0x80) * 64 + (d - 0x80)
  }

  predicate Follows(b: Byte) { 0x80 <= b < 0xC0 }

  predicate IsTwo(a: Byte, b: Byte) { 0xC2 <= a < 0xE0 && Follows(b) }

  predicate IsThree(a: Byte, b: Byte, c: Byte) {
    && Follows(b) && Follows(c)
    && ((a == 0xE0 && b >= 0xA0) || 0xE1 <= a < 0xED || (a == 0xED && b < 0xA0) || 0xEE <= a < 0xF0)
  }

  predicate IsFour(a: Byte, b: Byte, c: Byte, d: Byte) {
    && Follows(b) && Follows(c) && Follows(d)
    && ((a == 0xF0 && b >= 0x90) || 0xF1 <= a < 0xF4 || (a == 0xF4 && b < 0x90))
  }

  // The forms of section 4 of RFC 3629, less NUL: the length of the one at the head of s, or 0.
  function Form(s: seq<Byte>): (k: nat)
    requires s != []
    ensures k <= |s| && k <= 4
  {
    if 0 < s[0] < 0x80 then 1
    else if |s| >= 2 && IsTwo(s[0], s[1]) then 2
    else if |s| >= 3 && IsThree(s[0], s[1], s[2]) then 3
    else if |s| >= 4 && IsFour(s[0], s[1], s[2], s[3]) then 4
    else 0
  }

  lemma Digit(v: nat, w: nat, d: nat)
    requires d < 64 && v == w * 64 + d
    ensures v / 64 == w && v % 64 == d
  {
  }

  // The base-64 digits of v.
  lemma Digits(v: nat, a: nat, b: nat, c: nat, d: nat)
    requires b < 64 && c < 64 && d < 64 && v == a * 262144 + b * 4096 + c * 64 + d
    ensures v / 262144 == a && v / 4096 == a * 64 + b && v / 4096 % 64 == b
    ensures v / 64 == a * 4096 + b * 64 + c && v / 64 % 64 == c && v % 64 == d
  {
    Digit(v, a * 4096 + b * 64 + c, d);
    Digit(a * 4096 + b * 64 + c, a * 64 + b, c);
    Digit(a * 64 + b, a, b);
  }

  // A form is the encoding of the scalar it spells ...
  lemma FormEncodes(s: seq<Byte>)
    requires s != [] && Form(s) != 0
    ensures IsScalar(Value(s, Form(s))) && Encode(Value(s, Form(s))) == s[..Form(s)]
  {
    var k := Form(s);
    var a: int := s[0];
    if k == 2 {
      Digit(Value(s, k), a - 0xC0, s[1] - 0x80);
    } else if k == 3 {
      Digits(Value(s, k), 0, a - 0xE0, s[1] - 0x80, s[2] - 0x80);
    } else if k == 4 {
      Digits(Value(s, k), a - 0xF0, s[1] - 0x80, s[2] - 0x80, s[3] - 0x80);
    }
  }

  // ... and an encoding is a form whatever comes after it, and spells what it encodes.
  lemma EncodeForms(c: int, t: seq<Byte>)
    requires IsScalar(c)
    ensures Form(Encode(c) + t) == |Encode(c)| && Value(Encode(c) + t, |Encode(c)|) == c
  {
    var s := Encode(c) + t;
    if c < 0x800 {
      if c >= 0x80 {
        assert s[0] == 0xC0 + c / 64 && s[1] == Tail(c);
      }
    } else if c < 0x1_0000 {
      assert s[0] == 0xE0 + c / 4096 && s[1] == Tail(c / 64) && s[2] == Tail(c);
      hide Encode;
      ThreeForms(c, s);
    } else {
      assert s[0] == 0xF0 + c / 262144 && s[1] == Tail(c / 4096);
      assert s[2] == Tail(c / 64) && s[3] == Tail(c);
      hide Encode;
      FourForms(c, s);
    }
  }

  lemma ThreeForms(c: int, s: seq<Byte>)
    requires IsScalar(c) && 0x800 <= c < 0x1_0000 && |s| >= 3
    requires s[0] == 0xE0 + c / 4096 && s[1] == Tail(c / 64) && s[2] == Tail(c)
    ensures Form(s) == 3 && Value(s, 3) == c
  {
    Digits(c, 0, c / 4096, c / 64 % 64, c % 64);
  }

  lemma FourForms(c: int, s: seq<Byte>)
    requires 0x1_0000 <= c <= 0x10FFFF && |s| >= 4
    requires s[0] == 0xF0 + c / 262144 && s[1] == Tail(c / 4096)
    requires s[2] == Tail(c / 64) && s[3] == Tail(c)
    ensures Form(s) == 4 && Value(s, 4) == c
  {
    Digits(c, c / 262144, c / 4096 % 64, c / 64 % 64, c % 64);
  }

  // ---- Whole texts ----

  // One character more or less at the front.
  lemma Peel(s: seq<Byte>)
    requires s != []
    ensures IsText(s) <==> Form(s) != 0 && IsText(s[Form(s)..])
  {
    hide Value, Form, Encode;
    if IsText(s) {
      var cs :| Scalars(cs) && Encoded(cs) == s;
      EncodeForms(cs[0], Encoded(cs[1..]));
      assert s[Form(s)..] == Encoded(cs[1..]);
    }
    if Form(s) != 0 && IsText(s[Form(s)..]) {
      var cs :| Scalars(cs) && Encoded(cs) == s[Form(s)..];
      FormEncodes(s);
      assert Encoded([Value(s, Form(s))] + cs) == s by {
        assert ([Value(s, Form(s))] + cs)[1..] == cs;
      }
    }
  }

  // The scalars of a text are determined by its bytes.
  lemma {:induction false} TextIsUnique(cs: seq<int>, ds: seq<int>)
    requires Scalars(cs) && Scalars(ds) && Encoded(cs) == Encoded(ds)
    ensures cs == ds
  {
    hide Value, Form, Encode;
    if cs != [] && ds != [] {
      EncodeForms(cs[0], Encoded(cs[1..]));
      EncodeForms(ds[0], Encoded(ds[1..]));
      assert Encoded(cs)[|Encode(cs[0])|..] == Encoded(cs[1..]);
      assert Encoded(ds)[|Encode(ds[0])|..] == Encoded(ds[1..]);
      TextIsUnique(cs[1..], ds[1..]);
      assert cs == [cs[0]] + cs[1..] && ds == [ds[0]] + ds[1..];
    }
  }

  // Accepts exactly the texts.
  method PlainUtf8(s: array<bv8>, n: nat) returns (ok: bool)
    requires n <= s.Length
    ensures ok <==> IsText(Octets(s[..n]))
  {
    hide Form, Encode;
    ghost var all := Octets(s[..n]);
    var i := 0;
    while i < n
      invariant 0 <= i <= n && (IsText(all) <==> IsText(all[i..]))
    {
      var k := Next(s, n, i);
      assert Octets(s[i..n]) == all[i..];
      Peel(all[i..]);
      if k == 0 { return false; }
      assert all[i..][k..] == all[i + k..];
      i := i + k;
    }
    assert all[n..] == [] && Encoded([]) == [];
    return true;
  }

  // The tests on the bytes of a character are the forms.
  lemma TestsTwo(a: bv8, b: bv8)
    requires a & 0xE0 == 0xC0
    ensures !(a < 0xC2 || b & 0xC0 != 0x80) <==> IsTwo(a as int, b as int)
  {
  }

  lemma TestsThree(a: bv8, b: bv8, c: bv8)
    requires a & 0xF0 == 0xE0
    ensures && !(b & 0xC0 != 0x80 || c & 0xC0 != 0x80)
            && !((a == 0xE0 && b < 0xA0) || (a == 0xED && b >= 0xA0))
            <==> IsThree(a as int, b as int, c as int)
  {
  }

  lemma TestsFour(a: bv8, b: bv8, c: bv8, d: bv8)
    requires a & 0xF8 == 0xF0
    ensures && !(b & 0xC0 != 0x80 || c & 0xC0 != 0x80 || d & 0xC0 != 0x80)
            && !((a == 0xF0 && b < 0x90) || (a == 0xF4 && b >= 0x90) || a > 0xF4)
            <==> IsFour(a as int, b as int, c as int, d as int)
  {
  }

  // The first byte settles the form by itself.
  lemma Leads(t: seq<Byte>)
    requires t != []
    ensures t[0] == 0 || 0x80 <= t[0] < 0xC0 || t[0] >= 0xF8 ==> Form(t) == 0
    ensures 0 < t[0] <= 0x7F ==> Form(t) == 1
    ensures 0xC0 <= t[0] < 0xE0 ==> Form(t) == if |t| >= 2 && IsTwo(t[0], t[1]) then 2 else 0
    ensures 0xE0 <= t[0] < 0xF0 ==> Form(t) == if |t| >= 3 && IsThree(t[0], t[1], t[2]) then 3 else 0
    ensures 0xF0 <= t[0] < 0xF8 ==>
      Form(t) == if |t| >= 4 && IsFour(t[0], t[1], t[2], t[3]) then 4 else 0
  {
  }

  // One turn of the loop: how far to move, or 0 to refuse.
  method Next(s: array<bv8>, n: nat, i: nat) returns (k: nat)
    requires i < n <= s.Length
    ensures k == Form(Octets(s[i..n]))
  {
    hide IsTwo, IsThree, IsFour, Form;
    ghost var t := Octets(s[i..n]);
    var b0 := s[i];
    Leads(t);
    Masked(b0);
    if b0 == 0 { return 0; }
    if b0 <= 0x7F { return 1; }
    if b0 & 0xE0 == 0xC0 {
      if i + 1 < n { TestsTwo(b0, s[i + 1]); }
      if i + 1 >= n || b0 < 0xC2 || s[i + 1] & 0xC0 != 0x80 { return 0; }
      return 2;
    } else if b0 & 0xF0 == 0xE0 {
      if i + 2 < n { TestsThree(b0, s[i + 1], s[i + 2]); }
      if i + 2 >= n || s[i + 1] & 0xC0 != 0x80 || s[i + 2] & 0xC0 != 0x80 { return 0; }
      if (b0 == 0xE0 && s[i + 1] < 0xA0) || (b0 == 0xED && s[i + 1] >= 0xA0) { return 0; }
      return 3;
    } else if b0 & 0xF8 == 0xF0 {
      if i + 3 < n { TestsFour(b0, s[i + 1], s[i + 2], s[i + 3]); }
      if i + 3 >= n || s[i + 1] & 0xC0 != 0x80 || s[i + 2] & 0xC0 != 0x80
         || s[i + 3] & 0xC0 != 0x80 { return 0; }
      if (b0 == 0xF0 && s[i + 1] < 0x90) || (b0 == 0xF4 && s[i + 1] >= 0x90) || b0 > 0xF4 { return 0; }
      return 4;
    } else {
      return 0;
    }
  }
}
