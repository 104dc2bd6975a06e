// The field GF(2^8) with modulus x^8 + x^4 + x^3 + x + 1 (section 4.2 of FIPS 197), over bytes written out as their
// eight bits: the facts about its generator 3 that aes.c's logarithm and power tables rest on.
module Gf256 {

  datatype Byte = Byte(b0: bool, b1: bool, b2: bool, b3: bool, b4: bool, b5: bool, b6: bool, b7: bool)

  const ZERO := Byte(false, false, false, false, false, false, false, false)
  const ONE := Byte(true, false, false, false, false, false, false, false)

  function Xor(a: Byte, b: Byte): Byte {
    Byte(a.b0 != b.b0, a.b1 != b.b1, a.b2 != b.b2, a.b3 != b.b3,
         a.b4 != b.b4, a.b5 != b.b5, a.b6 != b.b6, a.b7 != b.b7)
  }

  /** Multiplication by x (section 4.2.1 of FIPS 197): shift, and fold bit 8 back as 0x1b. */
  function Xtime(a: Byte): Byte {
    Byte(a.b7, a.b0 != a.b7, a.b1, a.b2 != a.b7, a.b3 != a.b7, a.b4, a.b5, a.b6)
  }

  function Times3(a: Byte): Byte { Xor(a, Xtime(a)) }

  lemma {:induction false} XorZero(a: Byte)
    ensures Xor(a, ZERO) == a == Xor(ZERO, a) && Xor(a, a) == ZERO
  {
  }

  lemma {:induction false} XorComm(a: Byte, b: Byte)
    ensures Xor(a, b) == Xor(b, a)
  {
  }

  lemma {:induction false} XorAssoc(a: Byte, b: Byte, c: Byte)
    ensures Xor(Xor(a, b), c) == Xor(a, Xor(b, c))
  {
  }

  lemma {:induction false} Regroup(a: Byte, b: Byte, c: Byte, d: Byte)
    ensures Xor(Xor(a, b), Xor(c, d)) == Xor(Xor(a, c), Xor(b, d))
  {
  }

  lemma {:induction false} XtimeLinear(a: Byte, b: Byte)
    ensures Xtime(Xor(a, b)) == Xor(Xtime(a), Xtime(b))
  {
  }

  // ---------------------------------------------------------------- multiplication

  function Select(a: Byte, bit: bool): Byte { if bit then a else ZERO }

  function MulBits(a: Byte, bits: seq<bool>): Byte
    decreases |bits|
  {
    if bits == [] then ZERO else Xor(Select(a, bits[0]), MulBits(Xtime(a), bits[1..]))
  }

  function Bits(c: Byte): seq<bool> { [c.b0] + ([c.b1] + ([c.b2] + ([c.b3] + [c.b4, c.b5, c.b6, c.b7]))) }

  /** The product of two field elements: the sum of a·x^i over the bits i of c. */
  function Mul(a: Byte, c: Byte): Byte {
    MulBits(a, Bits(c))
  }

  lemma {:induction false} SelectLinear(a: Byte, b: Byte, bit: bool)
    ensures Select(Xor(a, b), bit) == Xor(Select(a, bit), Select(b, bit))
    ensures Select(Xtime(a), bit) == Xtime(Select(a, bit))
  {
  }

  lemma {:induction false} MulLinear(a: Byte, b: Byte, bits: seq<bool>)
    ensures MulBits(Xor(a, b), bits) == Xor(MulBits(a, bits), MulBits(b, bits))
    decreases |bits|
  {
    if bits == [] {
      XorZero(ZERO);
    } else {
      XtimeLinear(a, b);
      MulLinear(Xtime(a), Xtime(b), bits[1..]);
      SelectLinear(a, b, bits[0]);
      Regroup(Select(a, bits[0]), Select(b, bits[0]), MulBits(Xtime(a), bits[1..]), MulBits(Xtime(b), bits[1..]));
    }
  }

  lemma {:induction false} MulXtime(a: Byte, bits: seq<bool>)
    ensures MulBits(Xtime(a), bits) == Xtime(MulBits(a, bits))
    decreases |bits|
  {
    if bits != [] {
      MulXtime(Xtime(a), bits[1..]);
      SelectLinear(a, a, bits[0]);
      XtimeLinear(Select(a, bits[0]), MulBits(Xtime(a), bits[1..]));
    }
  }

  lemma {:induction false} MulTimes3(a: Byte, bits: seq<bool>)
    ensures MulBits(Times3(a), bits) == Times3(MulBits(a, bits))
  {
    MulLinear(a, Xtime(a), bits);
    MulXtime(a, bits);
  }

  lemma {:induction false} MulStep(a: Byte, bit: bool, bits: seq<bool>)
    ensures MulBits(a, [bit] + bits) == Xor(Select(a, bit), MulBits(Xtime(a), bits))
  {
    assert ([bit] + bits)[1..] == bits;
  }

  lemma {:induction false} MulOneHigh(c: Byte)
    ensures MulBits(Byte(false, false, false, false, true, false, false, false), [c.b4, c.b5, c.b6, c.b7]) ==
            Byte(false, false, false, false, c.b4, c.b5, c.b6, c.b7)
  {
    var x4 := Byte(false, false, false, false, true, false, false, false);
    MulStep(Xtime(Xtime(Xtime(x4))), c.b7, []);
    MulStep(Xtime(Xtime(x4)), c.b6, [c.b7]);
    MulStep(Xtime(x4), c.b5, [c.b6, c.b7]);
    MulStep(x4, c.b4, [c.b5, c.b6, c.b7]);
  }

  lemma {:induction false} MulOneMiddle(c: Byte, high: seq<bool>)
    requires high == [c.b4, c.b5, c.b6, c.b7]
    ensures MulBits(Byte(false, false, true, false, false, false, false, false), [c.b2] + ([c.b3] + high)) ==
            Byte(false, false, c.b2, c.b3, c.b4, c.b5, c.b6, c.b7)
  {
    var x2 := Byte(false, false, true, false, false, false, false, false);
    MulOneHigh(c);
    MulStep(Xtime(x2), c.b3, high);
    MulStep(x2, c.b2, [c.b3] + high);
  }

  lemma {:induction false} MulOneLow(c: Byte, tail: seq<bool>)
    requires MulBits(Byte(false, false, true, false, false, false, false, false), tail) ==
             Byte(false, false, c.b2, c.b3, c.b4, c.b5, c.b6, c.b7)
    ensures MulBits(ONE, [c.b0] + ([c.b1] + tail)) == c
  {
    MulStep(Xtime(ONE), c.b1, tail);
    MulStep(ONE, c.b0, [c.b1] + tail);
  }

  lemma {:induction false} MulOne(c: Byte)
    ensures Mul(ONE, c) == c
  {
    var high := [c.b4, c.b5, c.b6, c.b7];
    MulOneMiddle(c, high);
    MulOneLow(c, [c.b2] + ([c.b3] + high));
  }

  // ---------------------------------------------------------------- powers of the generator

  function Pow3(n: nat): Byte {
    if n == 0 then ONE else Times3(Pow3(n - 1))
  }

  lemma {:induction false} PowMul(m: nat, n: nat, bits: seq<bool>)
    requires MulBits(ONE, bits) == Pow3(n)
    ensures Pow3(m + n) == MulBits(Pow3(m), bits)
  {
    if m > 0 {
      PowMul(m - 1, n, bits);
      MulTimes3(Pow3(m - 1), bits);
    }
  }

  /** Exponents add. */
  lemma {:induction false} PowAdd(m: nat, n: nat)
    ensures Pow3(m + n) == Mul(Pow3(m), Pow3(n))
  {
    MulOne(Pow3(n));
    PowMul(m, n, Bits(Pow3(n)));
  }

  lemma {:induction false} Times3Injective(a: Byte, b: Byte)
    requires Times3(a) == Times3(b)
    ensures a == b
  {
  }

  lemma {:induction false} PowNonzero(n: nat)
    ensures Pow3(n) != ZERO
  {
    if n > 0 {
      PowNonzero(n - 1);
      assert Times3(ZERO) == ZERO;
      if Pow3(n) == ZERO { Times3Injective(Pow3(n - 1), ZERO); }
    }
  }

  // ---------------------------------------------------------------- machine bytes

  predicate Has(x: bv8, mask: bv8) { x & mask != 0 }

  /** The bits of a machine byte. */
  function ByteOf(x: bv8): Byte {
    Byte(Has(x, 0x01), Has(x, 0x02), Has(x, 0x04), Has(x, 0x08),
         Has(x, 0x10), Has(x, 0x20), Has(x, 0x40), Has(x, 0x80))
  }

  function Val(b: Byte): bv8 {
    (if b.b0 then 0x01 else 0) | (if b.b1 then 0x02 else 0) | (if b.b2 then 0x04 else 0) | (if b.b3 then 0x08 else 0) |
    (if b.b4 then 0x10 else 0) | (if b.b5 then 0x20 else 0) | (if b.b6 then 0x40 else 0) | (if b.b7 then 0x80 else 0)
  }

  lemma {:induction false} ByteVal(b: Byte)
    ensures ByteOf(Val(b)) == b
  {
  }

  lemma {:induction false} ValByte(x: bv8)
    ensures Val(ByteOf(x)) == x
  {
  }

  lemma {:induction false} LowXor(x: bv8, y: bv8)
    ensures Has(x ^ y, 0x01) == (Has(x, 0x01) != Has(y, 0x01)) && Has(x ^ y, 0x02) == (Has(x, 0x02) != Has(y, 0x02))
    ensures Has(x ^ y, 0x04) == (Has(x, 0x04) != Has(y, 0x04)) && Has(x ^ y, 0x08) == (Has(x, 0x08) != Has(y, 0x08))
  {
  }

  lemma {:induction false} HighXor(x: bv8, y: bv8)
    ensures Has(x ^ y, 0x10) == (Has(x, 0x10) != Has(y, 0x10)) && Has(x ^ y, 0x20) == (Has(x, 0x20) != Has(y, 0x20))
    ensures Has(x ^ y, 0x40) == (Has(x, 0x40) != Has(y, 0x40)) && Has(x ^ y, 0x80) == (Has(x, 0x80) != Has(y, 0x80))
  {
  }

  lemma {:induction false} AllXor(x: bv8, y: bv8, z: bv8)
    requires Has(z, 0x01) == (Has(x, 0x01) != Has(y, 0x01)) && Has(z, 0x02) == (Has(x, 0x02) != Has(y, 0x02))
    requires Has(z, 0x04) == (Has(x, 0x04) != Has(y, 0x04)) && Has(z, 0x08) == (Has(x, 0x08) != Has(y, 0x08))
    requires Has(z, 0x10) == (Has(x, 0x10) != Has(y, 0x10)) && Has(z, 0x20) == (Has(x, 0x20) != Has(y, 0x20))
    requires Has(z, 0x40) == (Has(x, 0x40) != Has(y, 0x40)) && Has(z, 0x80) == (Has(x, 0x80) != Has(y, 0x80))
    ensures ByteOf(z) == Xor(ByteOf(x), ByteOf(y))
  {
  }

  lemma {:induction false} ByteXor(x: bv8, y: bv8)
    ensures ByteOf(x ^ y) == Xor(ByteOf(x), ByteOf(y))
  {
    LowXor(x, y);
    HighXor(x, y);
    AllXor(x, y, x ^ y);
  }

  lemma {:induction false} ByteXtime(x: bv8)
    ensures ByteOf((x << 1) ^ (if x & 0x80 != 0 then 0x1b else 0)) == Xtime(ByteOf(x))
  {
  }

  // ---------------------------------------------------------------- the generator has order 255

  /** Multiplication by 3 as gen_tabs computes it. */
  function NextPower(p: bv8): bv8 { p ^ (p << 1) ^ (if p & 0x80 != 0 then 0x1b else 0) }

  function Power(n: nat): bv8 {
    if n == 0 then 1 else NextPower(Power(n - 1))
  }

  lemma {:induction false} ByteNext(p: bv8)
    ensures ByteOf(NextPower(p)) == Times3(ByteOf(p))
  {
    var x := (p << 1) ^ (if p & 0x80 != 0 then 0x1b else 0);
    assert NextPower(p) == p ^ x;
    ByteXtime(p);
    ByteXor(p, x);
  }

  lemma {:induction false} BytePower(n: nat)
    ensures ByteOf(Power(n)) == Pow3(n)
  {
    if n > 0 {
      BytePower(n - 1);
      ByteNext(Power(n - 1));
    }
  }

  function Three(v: bv8): bv8 { NextPower(NextPower(NextPower(v))) }

  /** Three multiplications by 3 that do not meet 1. */
  predicate Clear(v: bv8) {
    NextPower(v) != 1 && NextPower(NextPower(v)) != 1 && Three(v) != 1
  }

  lemma {:induction false} Walk3(n: nat, v: bv8)
    requires Power(n) == v && Clear(v)
    ensures Power(n + 3) == Three(v)
    ensures forall d :: n < d <= n + 3 ==> Power(d) != 1
  {
    assert Power(n + 1) == NextPower(v);
    assert Power(n + 2) == NextPower(NextPower(v));
  }

  lemma {:induction false} Walk15(n: nat, v: bv8, w: bv8)
    requires Power(n) == v && w == Three(Three(Three(Three(Three(v)))))
    requires Clear(v) && Clear(Three(v)) && Clear(Three(Three(v))) && Clear(Three(Three(Three(v))))
    requires Clear(Three(Three(Three(Three(v)))))
    ensures Power(n + 15) == w
    ensures forall d :: n < d <= n + 15 ==> Power(d) != 1
  {
    Walk3(n, v);
    Walk3(n + 3, Three(v));
    Walk3(n + 6, Three(Three(v)));
    Walk3(n + 9, Three(Three(Three(v))));
    Walk3(n + 12, Three(Three(Three(Three(v)))));
  }

  lemma {:induction false} WalkFirst()
    ensures Power(90) == 0xb3
    ensures forall d :: 0 < d <= 90 ==> Power(d) != 1
  {
    Walk15(0, 0x01, 0x35);
    Walk15(15, 0x35, 0x66);
    Walk15(30, 0x66, 0xab);
    Walk15(45, 0xab, 0xd3);
    Walk15(60, 0xd3, 0x08);
    Walk15(75, 0x08, 0xb3);
  }

  lemma {:induction false} WalkSecond()
    requires Power(90) == 0xb3
    ensures Power(180) == 0xe8
    ensures forall d :: 90 < d <= 180 ==> Power(d) != 1
  {
    Walk15(90, 0xb3, 0x1d);
    Walk15(105, 0x1d, 0x2f);
    Walk15(120, 0x2f, 0xc2);
    Walk15(135, 0xc2, 0x40);
    Walk15(150, 0x40, 0xef);
    Walk15(165, 0xef, 0xe8);
  }

  lemma {:induction false} WalkThird()
    requires Power(180) == 0xe8
    ensures Power(240) == 0x39
    ensures forall d :: 180 < d <= 240 ==> Power(d) != 1
  {
    Walk15(180, 0xe8, 0x63);
    Walk15(195, 0x63, 0x4a);
    Walk15(210, 0x4a, 0x36);
    Walk15(225, 0x36, 0x39);
  }

  lemma {:induction false} WalkLast()
    requires Power(240) == 0x39
    ensures Power(255) == 1
    ensures forall d :: 240 < d < 255 ==> Power(d) != 1
  {
    Walk3(240, 0x39);
    Walk3(243, 0x7c);
    Walk3(246, 0xa2);
    Walk3(249, 0x24);
    assert Power(253) == 0x52;
    assert Power(254) == 0xf6;
  }

  /** The powers of 3 meet 1 again exactly at 255. */
  lemma {:induction false} Order255()
    ensures Power(255) == 1
    ensures forall d :: 0 < d < 255 ==> Power(d) != 1
  {
    WalkFirst();
    WalkSecond();
    WalkThird();
    WalkLast();
  }

  // ---------------------------------------------------------------- logarithms

  lemma {:induction false} NextInjective(a: bv8, b: bv8)
    requires NextPower(a) == NextPower(b)
    ensures a == b
  {
  }

  lemma {:induction false} PowerCancels(n: nat, d: nat)
    requires Power(n + d) == Power(n)
    ensures Power(d) == 1
  {
    if n > 0 {
      NextInjective(Power(n - 1 + d), Power(n - 1));
      PowerCancels(n - 1, d);
    }
  }

  /** The first 255 powers of 3 are different. */
  lemma {:induction false} PowersDiffer(m: nat, n: nat)
    requires m < n && n - m < 255
    ensures Power(m) != Power(n)
  {
    if Power(m) == Power(n) {
      PowerCancels(m, n - m);
      Order255();
    }
  }

  lemma {:induction false} PowerNonzero(n: nat)
    ensures Power(n) != 0
  {
    if n > 0 {
      PowerNonzero(n - 1);
      assert NextPower(0) == 0;
      if Power(n) == 0 { NextInjective(Power(n - 1), 0); }
    }
  }

  ghost function Powers(n: nat): set<bv8> {
    set i | 0 <= i < n :: Power(i)
  }

  lemma {:induction false} PowersCount(n: nat)
    requires n <= 255
    ensures |Powers(n)| == n
  {
    if n > 0 {
      PowersCount(n - 1);
      assert Powers(n) == Powers(n - 1) + {Power(n - 1)};
      assert Power(n - 1) !in Powers(n - 1) by {
        forall i: nat | i < n - 1 ensures Power(i) != Power(n - 1) { PowersDiffer(i, n - 1); }
      }
    } else {
      assert Powers(0) == {};
    }
  }

  ghost function BytesBelow(n: nat): (s: set<bv8>)
    requires n <= 256
    ensures |s| <= n
  {
    if n == 0 then {} else BytesBelow(n - 1) + {(n - 1) as bv8}
  }

  lemma {:induction false} InBytesBelow(x: bv8, n: nat)
    requires x as int < n <= 256
    ensures x in BytesBelow(n)
  {
    if x as int < n - 1 {
      InBytesBelow(x, n - 1);
    } else {
      assert (x as int) as bv8 == x;
    }
  }

  lemma {:induction false} SubsetSize<T>(a: set<T>, b: set<T>)
    requires a <= b && |b| <= |a|
    ensures a == b
  {
    assert |b - a| == |b| - |a|;
  }

  /** Every non-zero byte is a power of 3. */
  lemma {:induction false} Generates(x: bv8)
    requires x != 0
    ensures exists n: nat :: n < 255 && Power(n) == x
  {
    var all := BytesBelow(256);
    PowersCount(255);
    assert 0 !in Powers(255) by { forall i: nat | i < 255 ensures Power(i) != 0 { PowerNonzero(i); } }
    forall y | y in Powers(255) + {0} ensures y in all { InBytesBelow(y, 256); }
    SubsetSize(Powers(255) + {0}, all);
    InBytesBelow(x, 256);
    assert x in Powers(255);
  }

  ghost function Log(x: bv8): (n: nat)
    requires x != 0
    ensures n < 255 && Power(n) == x
  {
    Generates(x);
    var n: nat :| n < 255 && Power(n) == x;
    n
  }

  lemma {:induction false} LogPower(n: nat)
    requires n < 255
    ensures Power(n) != 0 && Log(Power(n)) == n
  {
    PowerNonzero(n);
    var m := Log(Power(n));
    if m < n { PowersDiffer(m, n); } else if n < m { PowersDiffer(n, m); }
  }

  lemma {:induction false} PowerProduct(m: nat, n: nat)
    ensures ByteOf(Power(m + n)) == Mul(ByteOf(Power(m)), ByteOf(Power(n)))
  {
    calc {
      ByteOf(Power(m + n));
      { BytePower(m + n); }
      Pow3(m + n);
      { PowAdd(m, n); }
      Mul(Pow3(m), Pow3(n));
      { BytePower(m); BytePower(n); }
      Mul(ByteOf(Power(m)), ByteOf(Power(n)));
    }
  }

  lemma {:induction false} ByteOne()
    ensures ByteOf(1) == ONE
  {
  }
}
