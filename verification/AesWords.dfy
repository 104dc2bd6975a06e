// The 32-bit words aes.c works on, read as columns of the cipher's state: lane n of a word is row n of the column.
// Exclusive or, rotation by bytes and star_x on words are proved here to be the operations on columns that the other
// AES modules use.
module AesWords {
  import opened Gf256
  import opened AesSpec

  /** byte(x, n) */
  function Lane(x: bv32, n: nat): bv8
    requires n < 4
  {
    if n == 0 then (x & 0xff) as bv8
    else if n == 1 then ((x >> 8) & 0xff) as bv8
    else if n == 2 then ((x >> 16) & 0xff) as bv8
    else (x >> 24) as bv8
  }

  function Word(a: bv8, b: bv8, c: bv8, d: bv8): bv32 {
    (a as bv32) | ((b as bv32) << 8) | ((c as bv32) << 16) | ((d as bv32) << 24)
  }

  function ColOf(x: bv32): Col {
    Col(ByteOf(Lane(x, 0)), ByteOf(Lane(x, 1)), ByteOf(Lane(x, 2)), ByteOf(Lane(x, 3)))
  }

  lemma {:induction false} LaneWord(a: bv8, b: bv8, c: bv8, d: bv8)
    ensures Lane(Word(a, b, c, d), 0) == a && Lane(Word(a, b, c, d), 1) == b
    ensures Lane(Word(a, b, c, d), 2) == c && Lane(Word(a, b, c, d), 3) == d
  {
  }

  lemma {:induction false} WordLanes(x: bv32)
    ensures Word(Lane(x, 0), Lane(x, 1), Lane(x, 2), Lane(x, 3)) == x
  {
  }

  lemma {:induction false} ColWord(a: bv8, b: bv8, c: bv8, d: bv8)
    ensures ColOf(Word(a, b, c, d)) == Col(ByteOf(a), ByteOf(b), ByteOf(c), ByteOf(d))
  {
    LaneWord(a, b, c, d);
  }

  lemma {:induction false} LaneXor(x: bv32, y: bv32)
    ensures Lane(x ^ y, 0) == Lane(x, 0) ^ Lane(y, 0) && Lane(x ^ y, 1) == Lane(x, 1) ^ Lane(y, 1)
    ensures Lane(x ^ y, 2) == Lane(x, 2) ^ Lane(y, 2) && Lane(x ^ y, 3) == Lane(x, 3) ^ Lane(y, 3)
  {
  }

  lemma {:induction false} LaneByteXor(x: bv32, y: bv32, z: bv8, n: nat)
    requires n < 4 && z == Lane(x, n) ^ Lane(y, n)
    ensures ByteOf(z) == Xor(ByteOf(Lane(x, n)), ByteOf(Lane(y, n)))
  {
    ByteXor(Lane(x, n), Lane(y, n));
  }

  lemma {:induction false} ColXor(x: bv32, y: bv32)
    ensures ColOf(x ^ y) == XorCol(ColOf(x), ColOf(y))
  {
    var z0, z1, z2, z3 := Lane(x ^ y, 0), Lane(x ^ y, 1), Lane(x ^ y, 2), Lane(x ^ y, 3);
    assert ByteOf(z0) == Xor(ByteOf(Lane(x, 0)), ByteOf(Lane(y, 0))) by { LaneXor(x, y); LaneByteXor(x, y, z0, 0); }
    assert ByteOf(z1) == Xor(ByteOf(Lane(x, 1)), ByteOf(Lane(y, 1))) by { LaneXor(x, y); LaneByteXor(x, y, z1, 1); }
    assert ByteOf(z2) == Xor(ByteOf(Lane(x, 2)), ByteOf(Lane(y, 2))) by { LaneXor(x, y); LaneByteXor(x, y, z2, 2); }
    assert ByteOf(z3) == Xor(ByteOf(Lane(x, 3)), ByteOf(Lane(y, 3))) by { LaneXor(x, y); LaneByteXor(x, y, z3, 3); }
  }

  lemma {:induction false} ColInjective(x: bv32, y: bv32)
    requires ColOf(x) == ColOf(y)
    ensures x == y
  {
    ValByte(Lane(x, 0));
    ValByte(Lane(x, 1));
    ValByte(Lane(x, 2));
    ValByte(Lane(x, 3));
    ValByte(Lane(y, 0));
    ValByte(Lane(y, 1));
    ValByte(Lane(y, 2));
    ValByte(Lane(y, 3));
    WordLanes(x);
    WordLanes(y);
  }

  // ---------------------------------------------------------------- rotations

  /** ror32 by whole bytes */
  function Ror(x: bv32, n: nat): bv32
    requires n == 8 || n == 16 || n == 24
  {
    if n == 8 then (x >> 8) | (x << 24) else if n == 16 then (x >> 16) | (x << 16) else (x >> 24) | (x << 8)
  }

  /** rol32 by whole bytes */
  function Rol(x: bv32, n: nat): bv32
    requires n == 8 || n == 16 || n == 24
  {
    if n == 8 then (x << 8) | (x >> 24) else if n == 16 then (x << 16) | (x >> 16) else (x << 24) | (x >> 8)
  }

  function RotUp(c: Col): Col { Col(c.r1, c.r2, c.r3, c.r0) }

  function RotDown(c: Col): Col { Col(c.r3, c.r0, c.r1, c.r2) }

  lemma {:induction false} Ror8(x: bv32)
    ensures Lane(Ror(x, 8), 0) == Lane(x, 1) && Lane(Ror(x, 8), 1) == Lane(x, 2)
    ensures Lane(Ror(x, 8), 2) == Lane(x, 3) && Lane(Ror(x, 8), 3) == Lane(x, 0)
  {
  }

  lemma {:induction false} ColRor8(x: bv32)
    ensures ColOf(Ror(x, 8)) == RotUp(ColOf(x))
  {
    Ror8(x);
  }

  lemma {:induction false} Ror16(x: bv32)
    ensures Lane(Ror(x, 16), 0) == Lane(x, 2) && Lane(Ror(x, 16), 1) == Lane(x, 3)
    ensures Lane(Ror(x, 16), 2) == Lane(x, 0) && Lane(Ror(x, 16), 3) == Lane(x, 1)
  {
  }

  lemma {:induction false} ColRor16(x: bv32)
    ensures ColOf(Ror(x, 16)) == RotUp(RotUp(ColOf(x)))
  {
    Ror16(x);
  }

  lemma {:induction false} Ror24(x: bv32)
    ensures Lane(Ror(x, 24), 0) == Lane(x, 3) && Lane(Ror(x, 24), 1) == Lane(x, 0)
    ensures Lane(Ror(x, 24), 2) == Lane(x, 1) && Lane(Ror(x, 24), 3) == Lane(x, 2)
  {
  }

  lemma {:induction false} ColRor24(x: bv32)
    ensures ColOf(Ror(x, 24)) == RotUp(RotUp(RotUp(ColOf(x))))
  {
    Ror24(x);
  }

  lemma {:induction false} RolWord(a: bv8, b: bv8, c: bv8, d: bv8)
    ensures Rol(Word(a, b, c, d), 8) == Word(d, a, b, c)
  {
  }

  lemma {:induction false} RolWord16(a: bv8, b: bv8, c: bv8, d: bv8)
    ensures Rol(Word(a, b, c, d), 16) == Word(c, d, a, b)
  {
  }

  lemma {:induction false} RolWord24(a: bv8, b: bv8, c: bv8, d: bv8)
    ensures Rol(Word(a, b, c, d), 24) == Word(b, c, d, a)
  {
  }

  // ---------------------------------------------------------------- multiplication by x in four lanes at once

  /** star_x */
  function StarX(x: bv32): bv32 {
    ((x & 0x7f7f7f7f) << 1) ^ (((x & 0x80808080) >> 7) * 0x1b)
  }

  /** A byte in each of the lanes asked for. */
  function Spread(a: bool, b: bool, c: bool, d: bool, x: bv32): bv32 {
    (if a then x else 0) | (if b then x << 8 else 0) | (if c then x << 16 else 0) | (if d then x << 24 else 0)
  }

  lemma {:induction false} SpreadTimes(a: bool, b: bool, c: bool, d: bool)
    ensures Spread(a, b, c, d, 0x1) * 0x1b == Spread(a, b, c, d, 0x1b)
  {
  }

  lemma {:induction false} SpreadProduct(m: bv32)
    requires m & 0xfefefefe == 0
    ensures m * 0x1b == (if m & 0x1 != 0 then 0x1b else 0) | (if m & 0x100 != 0 then 0x1b00 else 0) |
                        (if m & 0x10000 != 0 then 0x1b0000 else 0) | (if m & 0x1000000 != 0 then 0x1b000000 else 0)
  {
    var a, b, c, d := m & 0x1 != 0, m & 0x100 != 0, m & 0x10000 != 0, m & 0x1000000 != 0;
    assert m == Spread(a, b, c, d, 0x1);
    SpreadTimes(a, b, c, d);
  }

  /** Multiplication by x on a machine byte. */
  function Doubled(p: bv8): bv8 { (p << 1) ^ (if p & 0x80 != 0 then 0x1b else 0) }

  lemma {:induction false} Star0(x: bv32)
    ensures Lane(StarX(x), 0) == Doubled(Lane(x, 0))
  {
    SpreadProduct((x & 0x80808080) >> 7);
  }

  lemma {:induction false} Star1(x: bv32)
    ensures Lane(StarX(x), 1) == Doubled(Lane(x, 1))
  {
    SpreadProduct((x & 0x80808080) >> 7);
  }

  lemma {:induction false} Star2(x: bv32)
    ensures Lane(StarX(x), 2) == Doubled(Lane(x, 2))
  {
    SpreadProduct((x & 0x80808080) >> 7);
  }

  lemma {:induction false} Star3(x: bv32)
    ensures Lane(StarX(x), 3) == Doubled(Lane(x, 3))
  {
    SpreadProduct((x & 0x80808080) >> 7);
  }

  lemma {:induction false} StarByte(p: bv8, z: bv8)
    requires z == Doubled(p)
    ensures ByteOf(z) == Xtime(ByteOf(p))
  {
    ByteXtime(p);
  }

  function XtimeCol(c: Col): Col { Col(Xtime(c.r0), Xtime(c.r1), Xtime(c.r2), Xtime(c.r3)) }

  lemma {:induction false} ColStar(x: bv32)
    ensures ColOf(StarX(x)) == XtimeCol(ColOf(x))
  {
    var y := StarX(x);
    assert ByteOf(Lane(y, 0)) == Xtime(ByteOf(Lane(x, 0))) by { Star0(x); StarByte(Lane(x, 0), Lane(y, 0)); }
    assert ByteOf(Lane(y, 1)) == Xtime(ByteOf(Lane(x, 1))) by { Star1(x); StarByte(Lane(x, 1), Lane(y, 1)); }
    assert ByteOf(Lane(y, 2)) == Xtime(ByteOf(Lane(x, 2))) by { Star2(x); StarByte(Lane(x, 2), Lane(y, 2)); }
    assert ByteOf(Lane(y, 3)) == Xtime(ByteOf(Lane(x, 3))) by { Star3(x); StarByte(Lane(x, 3), Lane(y, 3)); }
  }
}
