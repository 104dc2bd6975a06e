// The cipher of FIPS 197: bytes of GF(2^8), columns, rounds, the inverse cipher (section 5.3) and the equivalent
// inverse cipher (section 5.3.5). The affine step of the S-box is written with gen_tabs' rotations; AffineBits is the
// standard's own equation for it.
module AesSpec {
  import opened Gf256

  // ---------------------------------------------------------------- the S-box

  ghost function Inverse(x: bv8): bv8 {
    if x == 0 then 0 else Power(255 - Log(x))
  }

  /** The affine step, with the rotations gen_tabs uses. */
  function Affine(p: bv8): bv8 {
    var q := ((p >> 7) | (p << 1)) ^ ((p >> 6) | (p << 2));
    p ^ (0x63 ^ q ^ ((q >> 6) | (q << 2)))
  }

  /** The sum of a bit with the bits four to seven places on, and a bit of the constant. */
  predicate BitSum(a: bool, b: bool, c: bool, d: bool, e: bool, k: bool) { ((((a != b) != c) != d) != e) != k }

  /** The affine step bit by bit (section 5.1.1 of FIPS 197), with the constant 0x63. */
  lemma {:induction false} AffineBits(p: bv8)
    ensures var x, y := ByteOf(p), ByteOf(Affine(p));
            && y.b0 == BitSum(x.b0, x.b4, x.b5, x.b6, x.b7, true)
            && y.b1 == BitSum(x.b1, x.b5, x.b6, x.b7, x.b0, true)
            && y.b2 == BitSum(x.b2, x.b6, x.b7, x.b0, x.b1, false)
            && y.b3 == BitSum(x.b3, x.b7, x.b0, x.b1, x.b2, false)
            && y.b4 == BitSum(x.b4, x.b0, x.b1, x.b2, x.b3, false)
            && y.b5 == BitSum(x.b5, x.b1, x.b2, x.b3, x.b4, true)
            && y.b6 == BitSum(x.b6, x.b2, x.b3, x.b4, x.b5, true)
            && y.b7 == BitSum(x.b7, x.b3, x.b4, x.b5, x.b6, false)
  {
  }

  ghost function SubByte(x: bv8): bv8 { Affine(Inverse(x)) }

  lemma {:induction false} PowersCancel(m: nat, n: nat, x: bv8, y: bv8)
    requires m + n == 255 && x == Power(m) && y == Power(n)
    ensures y != 0 && Mul(ByteOf(x), ByteOf(y)) == ONE
  {
    PowerNonzero(n);
    PowerProduct(m, n);
    assert ByteOf(Power(m + n)) == ONE by {
      Order255();
      ByteOne();
    }
  }

  /** Inverse is the multiplicative inverse of the field (section 5.1.1 of FIPS 197). */
  lemma {:induction false} InverseIs(x: bv8)
    requires x != 0
    ensures Inverse(x) != 0 && Mul(ByteOf(x), ByteOf(Inverse(x))) == ONE
  {
    PowersCancel(Log(x), 255 - Log(x), x, Inverse(x));
  }

  lemma {:induction false} InverseInvolution(x: bv8)
    ensures Inverse(Inverse(x)) == x
  {
    if x != 0 {
      var n := Log(x);
      if n == 0 {
        Order255();
        LogPower(0);
      } else {
        LogPower(255 - n);
      }
    }
  }

  function UnAffine(y: bv8): bv8 {
    var z := y ^ 0x63;
    ((z >> 7) | (z << 1)) ^ ((z >> 5) | (z << 3)) ^ ((z >> 2) | (z << 6))
  }

  lemma {:induction false} AffineUndone(p: bv8)
    ensures UnAffine(Affine(p)) == p
  {
  }

  lemma {:induction false} AffineOnto(y: bv8)
    ensures Affine(UnAffine(y)) == y
  {
  }

  ghost function InvSubByte(y: bv8): bv8 { Inverse(UnAffine(y)) }

  lemma {:induction false} SubUndone(x: bv8)
    ensures InvSubByte(SubByte(x)) == x
  {
    AffineUndone(Inverse(x));
    InverseInvolution(x);
  }

  lemma {:induction false} SubOnto(y: bv8)
    ensures SubByte(InvSubByte(y)) == y
  {
    InverseInvolution(UnAffine(y));
    AffineOnto(y);
  }

  // ---------------------------------------------------------------- small multiples

  /** A coefficient in GF(2). */
  datatype Coef = O | I

  function Plus(k: Coef, l: Coef): Coef { if k == l then O else I }

  /** A polynomial in x of degree at most four, lowest coefficient first. */
  datatype Poly = Poly(k0: Coef, k1: Coef, k2: Coef, k3: Coef, k4: Coef)

  function Add(p: Poly, q: Poly): Poly {
    Poly(Plus(p.k0, q.k0), Plus(p.k1, q.k1), Plus(p.k2, q.k2), Plus(p.k3, q.k3), Plus(p.k4, q.k4))
  }

  function Pick(y: Byte, k: Coef): Byte { if k == I then y else ZERO }

  function Five(s0: Byte, s1: Byte, s2: Byte, s3: Byte, s4: Byte): Byte {
    Xor(Xor(Xor(s0, s1), Xor(s2, s3)), s4)
  }

  function Sum(p: Poly, y0: Byte, y1: Byte, y2: Byte, y3: Byte, y4: Byte): Byte {
    Five(Pick(y0, p.k0), Pick(y1, p.k1), Pick(y2, p.k2), Pick(y3, p.k3), Pick(y4, p.k4))
  }

  /** The multiple p·a. */
  function Times(p: Poly, a: Byte): Byte {
    var x1 := Xtime(a);
    var x2 := Xtime(x1);
    var x3 := Xtime(x2);
    Sum(p, a, x1, x2, x3, Xtime(x3))
  }

  lemma {:induction false} PickAdd(y: Byte, k: Coef, l: Coef)
    ensures Xor(Pick(y, k), Pick(y, l)) == Pick(y, Plus(k, l))
  {
    XorZero(y);
    XorZero(ZERO);
  }

  lemma {:induction false} PickLinear(y: Byte, z: Byte, k: Coef)
    ensures Pick(Xor(y, z), k) == Xor(Pick(y, k), Pick(z, k))
  {
    XorZero(ZERO);
  }

  lemma {:induction false} RegroupFive(s0: Byte, s1: Byte, s2: Byte, s3: Byte, s4: Byte, t0: Byte, t1: Byte, t2: Byte,
                                       t3: Byte, t4: Byte)
    ensures Xor(Five(s0, s1, s2, s3, s4), Five(t0, t1, t2, t3, t4)) ==
            Five(Xor(s0, t0), Xor(s1, t1), Xor(s2, t2), Xor(s3, t3), Xor(s4, t4))
  {
    Regroup(Xor(Xor(s0, s1), Xor(s2, s3)), s4, Xor(Xor(t0, t1), Xor(t2, t3)), t4);
    Regroup(Xor(s0, s1), Xor(s2, s3), Xor(t0, t1), Xor(t2, t3));
    Regroup(s0, s1, t0, t1);
    Regroup(s2, s3, t2, t3);
  }

  lemma {:induction false} SumAdd(p: Poly, q: Poly, y0: Byte, y1: Byte, y2: Byte, y3: Byte, y4: Byte)
    ensures Xor(Sum(p, y0, y1, y2, y3, y4), Sum(q, y0, y1, y2, y3, y4)) == Sum(Add(p, q), y0, y1, y2, y3, y4)
  {
    RegroupFive(Pick(y0, p.k0), Pick(y1, p.k1), Pick(y2, p.k2), Pick(y3, p.k3), Pick(y4, p.k4),
                Pick(y0, q.k0), Pick(y1, q.k1), Pick(y2, q.k2), Pick(y3, q.k3), Pick(y4, q.k4));
    PickAdd(y0, p.k0, q.k0);
    PickAdd(y1, p.k1, q.k1);
    PickAdd(y2, p.k2, q.k2);
    PickAdd(y3, p.k3, q.k3);
    PickAdd(y4, p.k4, q.k4);
  }

  lemma {:induction false} TimesAdd(p: Poly, q: Poly, a: Byte)
    ensures Xor(Times(p, a), Times(q, a)) == Times(Add(p, q), a)
  {
    SumAdd(p, q, a, Xtime(a), Xtime(Xtime(a)), Xtime(Xtime(Xtime(a))), Xtime(Xtime(Xtime(Xtime(a)))));
  }

  lemma {:induction false} SumLinear(p: Poly, y0: Byte, y1: Byte, y2: Byte, y3: Byte, y4: Byte,
                  z0: Byte, z1: Byte, z2: Byte, z3: Byte, z4: Byte)
    ensures Sum(p, Xor(y0, z0), Xor(y1, z1), Xor(y2, z2), Xor(y3, z3), Xor(y4, z4)) ==
            Xor(Sum(p, y0, y1, y2, y3, y4), Sum(p, z0, z1, z2, z3, z4))
  {
    PickLinear(y0, z0, p.k0);
    PickLinear(y1, z1, p.k1);
    PickLinear(y2, z2, p.k2);
    PickLinear(y3, z3, p.k3);
    PickLinear(y4, z4, p.k4);
    RegroupFive(Pick(y0, p.k0), Pick(y1, p.k1), Pick(y2, p.k2), Pick(y3, p.k3), Pick(y4, p.k4),
                Pick(z0, p.k0), Pick(z1, p.k1), Pick(z2, p.k2), Pick(z3, p.k3), Pick(z4, p.k4));
  }

  lemma {:induction false} TimesLinear(p: Poly, a: Byte, b: Byte)
    ensures Times(p, Xor(a, b)) == Xor(Times(p, a), Times(p, b))
  {
    var a1, b1 := Xtime(a), Xtime(b);
    var a2, b2 := Xtime(a1), Xtime(b1);
    var a3, b3 := Xtime(a2), Xtime(b2);
    XtimeLinear(a, b);
    XtimeLinear(a1, b1);
    XtimeLinear(a2, b2);
    XtimeLinear(a3, b3);
    SumLinear(p, a, a1, a2, a3, Xtime(a3), b, b1, b2, b3, Xtime(b3));
  }

  /** Multiplying by x shifts the coefficients. */
  function Shift(p: Poly): Poly { Poly(O, p.k0, p.k1, p.k2, p.k3) }

  lemma {:induction false} SumShift(p: Poly, y0: Byte, y1: Byte, y2: Byte, y3: Byte, y4: Byte, y5: Byte)
    requires p.k4 == O
    ensures Sum(p, y1, y2, y3, y4, y5) == Sum(Shift(p), y0, y1, y2, y3, y4)
  {
    var s1, s2, s3, s4 := Pick(y1, p.k0), Pick(y2, p.k1), Pick(y3, p.k2), Pick(y4, p.k3);
    XorZero(Xor(Xor(s1, s2), Xor(s3, s4)));
    XorZero(s1);
    XorAssoc(s1, s2, Xor(s3, s4));
    XorAssoc(s2, s3, s4);
    XorAssoc(s1, Xor(s2, s3), s4);
  }

  lemma {:induction false} TimesShift(p: Poly, a: Byte)
    requires p.k4 == O
    ensures Times(p, Xtime(a)) == Times(Shift(p), a)
  {
    var x1 := Xtime(a);
    var x2 := Xtime(x1);
    var x3 := Xtime(x2);
    var x4 := Xtime(x3);
    SumShift(p, a, x1, x2, x3, x4, Xtime(x4));
  }

  lemma {:induction false} TimesThree(p: Poly, a: Byte)
    requires p.k4 == O
    ensures Times(p, Times3(a)) == Times(Add(p, Shift(p)), a)
  {
    TimesLinear(p, a, Xtime(a));
    TimesShift(p, a);
    TimesAdd(p, Shift(p), a);
  }

  const POLY1 := Poly(I, O, O, O, O)
  const POLY0 := Poly(O, O, O, O, O)

  lemma {:induction false} FiveUnit(y: Byte)
    ensures Five(y, ZERO, ZERO, ZERO, ZERO) == y
  {
    XorZero(y);
    XorZero(ZERO);
  }

  lemma {:induction false} SumUnit(p: Poly, y0: Byte, y1: Byte, y2: Byte, y3: Byte, y4: Byte)
    requires p.k1 == O && p.k2 == O && p.k3 == O && p.k4 == O
    ensures Sum(p, y0, y1, y2, y3, y4) == Pick(y0, p.k0)
  {
    FiveUnit(Pick(y0, p.k0));
  }

  lemma {:induction false} TimesUnit(a: Byte)
    ensures Times(POLY1, a) == a && Times(POLY0, a) == ZERO
  {
    var x1 := Xtime(a);
    var x2 := Xtime(x1);
    var x3 := Xtime(x2);
    SumUnit(POLY1, a, x1, x2, x3, Xtime(x3));
    SumUnit(POLY0, a, x1, x2, x3, Xtime(x3));
  }

  const P9 := Poly(I, O, O, I, O)
  const P11 := Poly(I, I, O, I, O)
  const P13 := Poly(I, O, I, I, O)
  const P14 := Poly(O, I, I, I, O)

  // 14·2 + 11 + 13 + 9·3 = 1, 14·3 + 11·2 + 13 + 9 = 0, 14 + 11·3 + 13·2 + 9 = 0, 14 + 11 + 13·3 + 9·2 = 0

  lemma {:induction false} Four(p: Poly, q: Poly, r: Poly, s: Poly, a: Byte)
    ensures Xor(Xor(Times(p, a), Times(q, a)), Xor(Times(r, a), Times(s, a))) == Times(Add(Add(p, q), Add(r, s)), a)
  {
    TimesAdd(p, q, a);
    TimesAdd(r, s, a);
    TimesAdd(Add(p, q), Add(r, s), a);
  }

  lemma {:induction false} PolySums()
    ensures Add(Add(Shift(P14), P11), Add(P13, Add(P9, Shift(P9)))) == POLY1
    ensures Add(Add(Add(P14, Shift(P14)), Shift(P11)), Add(P13, P9)) == POLY0
    ensures Add(Add(P14, Add(P11, Shift(P11))), Add(Shift(P13), P9)) == POLY0
    ensures Add(Add(P14, P11), Add(Add(P13, Shift(P13)), Shift(P9))) == POLY0
  {
  }

  /** A product that is named without being computed. */
  ghost predicate Multiplies(times: (Poly, Byte) -> Byte) {
    forall p, a {:trigger Times(p, a)} :: times(p, a) == Times(p, a)
  }

  lemma {:induction false} Coefficient0(times: (Poly, Byte) -> Byte, a: Byte)
    requires Multiplies(times)
    ensures Xor(Xor(times(P14, Xtime(a)), times(P11, a)), Xor(times(P13, a), times(P9, Times3(a)))) == a
  {
    TimesShift(P14, a);
    TimesThree(P9, a);
    Four(Shift(P14), P11, P13, Add(P9, Shift(P9)), a);
    PolySums();
    TimesUnit(a);
    assert Xor(Xor(Times(P14, Xtime(a)), Times(P11, a)), Xor(Times(P13, a), Times(P9, Times3(a)))) == a;
  }

  lemma {:induction false} Coefficient1(times: (Poly, Byte) -> Byte, a: Byte)
    requires Multiplies(times)
    ensures Xor(Xor(times(P14, Times3(a)), times(P11, Xtime(a))), Xor(times(P13, a), times(P9, a))) == ZERO
  {
    TimesThree(P14, a);
    TimesShift(P11, a);
    Four(Add(P14, Shift(P14)), Shift(P11), P13, P9, a);
    PolySums();
    TimesUnit(a);
    assert Xor(Xor(Times(P14, Times3(a)), Times(P11, Xtime(a))), Xor(Times(P13, a), Times(P9, a))) == ZERO;
  }

  lemma {:induction false} Coefficient2(times: (Poly, Byte) -> Byte, a: Byte)
    requires Multiplies(times)
    ensures Xor(Xor(times(P14, a), times(P11, Times3(a))), Xor(times(P13, Xtime(a)), times(P9, a))) == ZERO
  {
    TimesThree(P11, a);
    TimesShift(P13, a);
    Four(P14, Add(P11, Shift(P11)), Shift(P13), P9, a);
    PolySums();
    TimesUnit(a);
    assert Xor(Xor(Times(P14, a), Times(P11, Times3(a))), Xor(Times(P13, Xtime(a)), Times(P9, a))) == ZERO;
  }

  lemma {:induction false} Coefficient3(times: (Poly, Byte) -> Byte, a: Byte)
    requires Multiplies(times)
    ensures Xor(Xor(times(P14, a), times(P11, a)), Xor(times(P13, Times3(a)), times(P9, Xtime(a)))) == ZERO
  {
    TimesThree(P13, a);
    TimesShift(P9, a);
    Four(P14, P11, Add(P13, Shift(P13)), Shift(P9), a);
    PolySums();
    TimesUnit(a);
    assert Xor(Xor(Times(P14, a), Times(P11, a)), Xor(Times(P13, Times3(a)), Times(P9, Xtime(a)))) == ZERO;
  }

  // ---------------------------------------------------------------- columns

  datatype Col = Col(r0: Byte, r1: Byte, r2: Byte, r3: Byte)

  function XorCol(a: Col, b: Col): Col {
    Col(Xor(a.r0, b.r0), Xor(a.r1, b.r1), Xor(a.r2, b.r2), Xor(a.r3, b.r3))
  }

  /** One row of MixColumns (section 5.1.3 of FIPS 197): 2a + 3b + c + d. */
  function MixRow(a: Byte, b: Byte, c: Byte, d: Byte): Byte {
    Xor(Xor(Xtime(a), Times3(b)), Xor(c, d))
  }

  function MixCol(c: Col): Col {
    Col(MixRow(c.r0, c.r1, c.r2, c.r3), MixRow(c.r1, c.r2, c.r3, c.r0),
        MixRow(c.r2, c.r3, c.r0, c.r1), MixRow(c.r3, c.r0, c.r1, c.r2))
  }

  /** One row of InvMixColumns (section 5.3.3): 14a + 11b + 13c + 9d. */
  function UnmixRow(a: Byte, b: Byte, c: Byte, d: Byte): Byte {
    Xor(Xor(Times(P14, a), Times(P11, b)), Xor(Times(P13, c), Times(P9, d)))
  }

  function UnmixCol(c: Col): Col {
    Col(UnmixRow(c.r0, c.r1, c.r2, c.r3), UnmixRow(c.r1, c.r2, c.r3, c.r0),
        UnmixRow(c.r2, c.r3, c.r0, c.r1), UnmixRow(c.r3, c.r0, c.r1, c.r2))
  }

  lemma {:induction false} TimesMixed(p: Poly, a: Byte, b: Byte, c: Byte, d: Byte)
    ensures Times(p, MixRow(a, b, c, d)) ==
            Xor(Xor(Times(p, Xtime(a)), Times(p, Times3(b))), Xor(Times(p, c), Times(p, d)))
  {
    TimesLinear(p, Xor(Xtime(a), Times3(b)), Xor(c, d));
    TimesLinear(p, Xtime(a), Times3(b));
    TimesLinear(p, c, d);
  }

  lemma {:induction false} Rotate(a: Byte, b: Byte, c: Byte, d: Byte)
    ensures Xor(Xor(a, b), Xor(c, d)) == Xor(Xor(d, a), Xor(b, c))
  {
    XorComm(Xor(a, b), Xor(c, d));
    XorComm(c, d);
    XorAssoc(d, c, Xor(a, b));
    XorComm(c, Xor(a, b));
    XorAssoc(a, b, c);
    XorAssoc(d, a, Xor(b, c));
  }

  lemma {:induction false} Rows(a0: Byte, b0: Byte, c0: Byte, d0: Byte, a1: Byte, b1: Byte, c1: Byte, d1: Byte)
    ensures Xor(Xor(Xor(a0, b0), Xor(c0, d0)), Xor(Xor(a1, b1), Xor(c1, d1))) ==
            Xor(Xor(Xor(a0, a1), Xor(b0, b1)), Xor(Xor(c0, c1), Xor(d0, d1)))
  {
    Regroup(Xor(a0, b0), Xor(c0, d0), Xor(a1, b1), Xor(c1, d1));
    Regroup(a0, b0, a1, b1);
    Regroup(c0, d0, c1, d1);
  }

  /** Adding up a four by four square by rows or by columns gives the same. */
  lemma {:induction false} Square(a0: Byte, b0: Byte, c0: Byte, d0: Byte, a1: Byte, b1: Byte, c1: Byte, d1: Byte,
               a2: Byte, b2: Byte, c2: Byte, d2: Byte, a3: Byte, b3: Byte, c3: Byte, d3: Byte)
    ensures Xor(Xor(Xor(Xor(a0, b0), Xor(c0, d0)), Xor(Xor(a1, b1), Xor(c1, d1))),
                Xor(Xor(Xor(a2, b2), Xor(c2, d2)), Xor(Xor(a3, b3), Xor(c3, d3)))) ==
            Xor(Xor(Xor(Xor(a0, a1), Xor(a2, a3)), Xor(Xor(b0, b1), Xor(b2, b3))),
                Xor(Xor(Xor(c0, c1), Xor(c2, c3)), Xor(Xor(d0, d1), Xor(d2, d3))))
  {
    Rows(a0, b0, c0, d0, a1, b1, c1, d1);
    Rows(a2, b2, c2, d2, a3, b3, c3, d3);
    Rows(Xor(a0, a1), Xor(b0, b1), Xor(c0, c1), Xor(d0, d1), Xor(a2, a3), Xor(b2, b3), Xor(c2, c3), Xor(d2, d3));
  }

  lemma {:induction false} TimesRow(times: (Poly, Byte) -> Byte, p: Poly, a: Byte, b: Byte, c: Byte, d: Byte)
    requires Multiplies(times)
    ensures times(p, MixRow(a, b, c, d)) == Xor(Xor(times(p, Xtime(a)), times(p, Times3(b))),
                                                Xor(times(p, c), times(p, d)))
  {
    TimesMixed(p, a, b, c, d);
    assert Times(p, MixRow(a, b, c, d)) == Xor(Xor(Times(p, Xtime(a)), Times(p, Times3(b))),
                                               Xor(Times(p, c), Times(p, d)));
  }

  lemma {:induction false} MixedSum(times: (Poly, Byte) -> Byte, a: Byte, b: Byte, c: Byte, d: Byte)
    requires Multiplies(times)
    ensures Xor(Xor(times(P14, MixRow(a, b, c, d)), times(P11, MixRow(b, c, d, a))),
                Xor(times(P13, MixRow(c, d, a, b)), times(P9, MixRow(d, a, b, c)))) == a
  {
    var a0, b0, c0, d0 := times(P14, Xtime(a)), times(P14, Times3(b)), times(P14, c), times(P14, d);
    TimesRow(times, P14, a, b, c, d);
    var b1, c1, d1, a1 := times(P11, Xtime(b)), times(P11, Times3(c)), times(P11, d), times(P11, a);
    TimesRow(times, P11, b, c, d, a);
    Rotate(b1, c1, d1, a1);
    var c2, d2, a2, b2 := times(P13, Xtime(c)), times(P13, Times3(d)), times(P13, a), times(P13, b);
    TimesRow(times, P13, c, d, a, b);
    XorComm(Xor(c2, d2), Xor(a2, b2));
    var d3, a3, b3, c3 := times(P9, Xtime(d)), times(P9, Times3(a)), times(P9, b), times(P9, c);
    TimesRow(times, P9, d, a, b, c);
    Rotate(a3, b3, c3, d3);
    Square(a0, b0, c0, d0, a1, b1, c1, d1, a2, b2, c2, d2, a3, b3, c3, d3);
    Coefficient0(times, a);
    Coefficient1(times, b);
    Coefficient2(times, c);
    Coefficient3(times, d);
    XorZero(a);
    XorZero(ZERO);
  }

  /** Each row of InvMixColumns undoes the mixing of its byte. */
  lemma {:induction false} UnmixRowUndoes(a: Byte, b: Byte, c: Byte, d: Byte)
    ensures UnmixRow(MixRow(a, b, c, d), MixRow(b, c, d, a), MixRow(c, d, a, b), MixRow(d, a, b, c)) == a
  {
    MixedSum(Times, a, b, c, d);
  }

  lemma {:induction false} UnmixUndoes(c: Col)
    ensures UnmixCol(MixCol(c)) == c
  {
    UnmixRowUndoes(c.r0, c.r1, c.r2, c.r3);
    UnmixRowUndoes(c.r1, c.r2, c.r3, c.r0);
    UnmixRowUndoes(c.r2, c.r3, c.r0, c.r1);
    UnmixRowUndoes(c.r3, c.r0, c.r1, c.r2);
  }

  lemma {:induction false} UnmixRowLinear(a: Byte, b: Byte, c: Byte, d: Byte, a': Byte, b': Byte, c': Byte, d': Byte)
    ensures UnmixRow(Xor(a, a'), Xor(b, b'), Xor(c, c'), Xor(d, d')) ==
            Xor(UnmixRow(a, b, c, d), UnmixRow(a', b', c', d'))
  {
    TimesLinear(P14, a, a');
    TimesLinear(P11, b, b');
    TimesLinear(P13, c, c');
    TimesLinear(P9, d, d');
    Rows(Times(P14, a), Times(P11, b), Times(P13, c), Times(P9, d),
         Times(P14, a'), Times(P11, b'), Times(P13, c'), Times(P9, d'));
  }

  /** InvMixColumns is linear, which is what lets it pass the round key. */
  lemma {:induction false} UnmixLinear(a: Col, b: Col)
    ensures UnmixCol(XorCol(a, b)) == XorCol(UnmixCol(a), UnmixCol(b))
  {
    UnmixRowLinear(a.r0, a.r1, a.r2, a.r3, b.r0, b.r1, b.r2, b.r3);
    UnmixRowLinear(a.r1, a.r2, a.r3, a.r0, b.r1, b.r2, b.r3, b.r0);
    UnmixRowLinear(a.r2, a.r3, a.r0, a.r1, b.r2, b.r3, b.r0, b.r1);
    UnmixRowLinear(a.r3, a.r0, a.r1, a.r2, b.r3, b.r0, b.r1, b.r2);
  }

  lemma {:induction false} FiveWithout(y: Byte, a: Byte, b: Byte)
    ensures Five(y, ZERO, ZERO, a, ZERO) == Xor(a, y)
    ensures Five(y, a, ZERO, b, ZERO) == Xor(a, Xor(b, y))
    ensures Five(y, ZERO, a, b, ZERO) == Xor(a, Xor(b, y))
    ensures Five(ZERO, y, a, b, ZERO) == Xor(Xor(y, a), b)
  {
    XorZero(y);
    XorZero(a);
    XorZero(b);
    XorComm(y, a);
    XorComm(y, b);
    XorAssoc(a, y, b);
    XorAssoc(y, a, b);
    XorComm(y, Xor(a, b));
    XorAssoc(a, b, y);
    XorZero(Xor(y, a));
    XorZero(Xor(Xor(y, a), b));
    XorZero(Xor(y, Xor(a, b)));
  }

  lemma {:induction false} SumOf(p: Poly, y0: Byte, y1: Byte, y2: Byte, y3: Byte, y4: Byte,
              s0: Byte, s1: Byte, s2: Byte, s3: Byte, s4: Byte)
    requires Pick(y0, p.k0) == s0 && Pick(y1, p.k1) == s1 && Pick(y2, p.k2) == s2
    requires Pick(y3, p.k3) == s3 && Pick(y4, p.k4) == s4
    ensures Sum(p, y0, y1, y2, y3, y4) == Five(s0, s1, s2, s3, s4)
  {
  }

  lemma {:induction false} SmallTimes(a: Byte)
    ensures var x1 := Xtime(a); var x2 := Xtime(x1); var x3 := Xtime(x2);
            && Times(P9, a) == Xor(x3, a)
            && Times(P11, a) == Xor(x1, Xor(x3, a))
            && Times(P13, a) == Xor(x2, Xor(x3, a))
            && Times(P14, a) == Xor(Xor(x1, x2), x3)
  {
    var x1 := Xtime(a);
    var x2 := Xtime(x1);
    var x3 := Xtime(x2);
    var x4 := Xtime(x3);
    SumOf(P9, a, x1, x2, x3, x4, a, ZERO, ZERO, x3, ZERO);
    SumOf(P11, a, x1, x2, x3, x4, a, x1, ZERO, x3, ZERO);
    SumOf(P13, a, x1, x2, x3, x4, a, ZERO, x2, x3, ZERO);
    SumOf(P14, a, x1, x2, x3, x4, ZERO, x1, x2, x3, ZERO);
    FiveWithout(a, x1, x3);
    FiveWithout(a, x3, x3);
    FiveWithout(a, x2, x3);
    FiveWithout(x1, x2, x3);
  }

  // ---------------------------------------------------------------- multiples by the constants of the tables

  lemma {:induction false} MulNone(a: Byte)
    ensures MulBits(a, [false, false, false, false]) == ZERO
  {
    XorZero(ZERO);
    var x := Xtime(a);
    MulStep(Xtime(Xtime(x)), false, []);
    MulStep(Xtime(x), false, [false]);
    MulStep(x, false, [false, false]);
    MulStep(a, false, [false, false, false]);
    assert [false] + [false] == [false, false];
    assert [false] + [false, false] == [false, false, false];
    assert [false] + [false, false, false] == [false, false, false, false];
  }

  lemma {:induction false} FlattenFour(s0: Byte, s1: Byte, s2: Byte, s3: Byte)
    ensures Xor(s0, Xor(s1, Xor(s2, Xor(s3, ZERO)))) == Five(s0, s1, s2, s3, ZERO)
  {
    XorZero(s3);
    XorAssoc(s0, s1, Xor(s2, s3));
    XorZero(Xor(Xor(s0, s1), Xor(s2, s3)));
  }

  lemma {:induction false} MulFour(a: Byte, b0: bool, b1: bool, b2: bool, b3: bool, none: seq<bool>)
    requires none == [false, false, false, false]
    ensures MulBits(a, [b0] + ([b1] + ([b2] + ([b3] + none)))) ==
            Five(Select(a, b0), Select(Xtime(a), b1), Select(Xtime(Xtime(a)), b2), Select(Xtime(Xtime(Xtime(a))), b3),
                ZERO)
  {
    var x1 := Xtime(a);
    var x2 := Xtime(x1);
    var x3 := Xtime(x2);
    MulNone(Xtime(x3));
    MulStep(x3, b3, none);
    MulStep(x2, b2, [b3] + none);
    MulStep(x1, b1, [b2] + ([b3] + none));
    MulStep(a, b0, [b1] + ([b2] + ([b3] + none)));
    FlattenFour(Select(a, b0), Select(x1, b1), Select(x2, b2), Select(x3, b3));
  }

  ghost predicate Same(k: Coef, bit: bool) { k == I <==> bit }

  lemma {:induction false} PickSame(y: Byte, k: Coef, bit: bool)
    requires Same(k, bit)
    ensures Pick(y, k) == Select(y, bit)
  {
  }

  /** Multiplication by a constant of degree at most three. */
  lemma {:induction false} MulSmall(a: Byte, c: Byte, p: Poly)
    requires !c.b4 && !c.b5 && !c.b6 && !c.b7 && p.k4 == O
    requires Same(p.k0, c.b0) && Same(p.k1, c.b1) && Same(p.k2, c.b2) && Same(p.k3, c.b3)
    ensures Mul(a, c) == Times(p, a)
  {
    var x1 := Xtime(a);
    var x2 := Xtime(x1);
    var x3 := Xtime(x2);
    MulFour(a, c.b0, c.b1, c.b2, c.b3, [c.b4, c.b5, c.b6, c.b7]);
    PickSame(a, p.k0, c.b0);
    PickSame(x1, p.k1, c.b1);
    PickSame(x2, p.k2, c.b2);
    PickSame(x3, p.k3, c.b3);
    SumOf(p, a, x1, x2, x3, Xtime(x3), Select(a, c.b0), Select(x1, c.b1), Select(x2, c.b2), Select(x3, c.b3), ZERO);
  }

  lemma {:induction false} FiveTwo(y: Byte, z: Byte)
    ensures Five(y, z, ZERO, ZERO, ZERO) == Xor(y, z)
  {
    XorZero(ZERO);
    XorZero(Xor(y, z));
  }

  lemma {:induction false} PolyTwo(a: Byte)
    ensures Times(Poly(O, I, O, O, O), a) == Xtime(a)
  {
    var x1 := Xtime(a);
    var x2 := Xtime(x1);
    var x3 := Xtime(x2);
    SumOf(Poly(O, I, O, O, O), a, x1, x2, x3, Xtime(x3), ZERO, x1, ZERO, ZERO, ZERO);
    FiveTwo(ZERO, x1);
    XorZero(x1);
  }

  lemma {:induction false} PolyThree(a: Byte)
    ensures Times(Poly(I, I, O, O, O), a) == Times3(a)
  {
    var x1 := Xtime(a);
    var x2 := Xtime(x1);
    var x3 := Xtime(x2);
    SumOf(Poly(I, I, O, O, O), a, x1, x2, x3, Xtime(x3), a, x1, ZERO, ZERO, ZERO);
    FiveTwo(a, x1);
  }

  /** The six constants that the look-up tables multiply by. */
  lemma {:induction false} TableMultiples(a: Byte)
    ensures Mul(a, ByteOf(2)) == Xtime(a) && Mul(a, ByteOf(3)) == Times3(a)
    ensures Mul(a, ByteOf(9)) == Times(P9, a) && Mul(a, ByteOf(11)) == Times(P11, a)
    ensures Mul(a, ByteOf(13)) == Times(P13, a) && Mul(a, ByteOf(14)) == Times(P14, a)
  {
    PolyTwo(a);
    PolyThree(a);
    MulSmall(a, ByteOf(2), Poly(O, I, O, O, O));
    MulSmall(a, ByteOf(3), Poly(I, I, O, O, O));
    MulSmall(a, ByteOf(9), P9);
    MulSmall(a, ByteOf(11), P11);
    MulSmall(a, ByteOf(13), P13);
    MulSmall(a, ByteOf(14), P14);
  }

  // ---------------------------------------------------------------- blocks

  datatype Block = Block(c0: Col, c1: Col, c2: Col, c3: Col)

  ghost function Sub(b: Byte): Byte { ByteOf(SubByte(Val(b))) }

  ghost function InvSub(b: Byte): Byte { ByteOf(InvSubByte(Val(b))) }

  lemma {:induction false} InvSubUndoes(b: Byte)
    ensures InvSub(Sub(b)) == b
  {
    var x := SubByte(Val(b));
    ValByte(x);
    SubUndone(Val(b));
    ByteVal(b);
  }

  ghost function SubCol(c: Col): Col { Col(Sub(c.r0), Sub(c.r1), Sub(c.r2), Sub(c.r3)) }

  ghost function InvSubCol(c: Col): Col { Col(InvSub(c.r0), InvSub(c.r1), InvSub(c.r2), InvSub(c.r3)) }

  lemma {:induction false} InvSubColUndoes(c: Col)
    ensures InvSubCol(SubCol(c)) == c
  {
    InvSubUndoes(c.r0);
    InvSubUndoes(c.r1);
    InvSubUndoes(c.r2);
    InvSubUndoes(c.r3);
  }

  ghost function SubBytes(b: Block): Block { Block(SubCol(b.c0), SubCol(b.c1), SubCol(b.c2), SubCol(b.c3)) }

  ghost function InvSubBytes(b: Block): Block {
    Block(InvSubCol(b.c0), InvSubCol(b.c1), InvSubCol(b.c2), InvSubCol(b.c3))
  }

  /** Row r moves r columns to the left (section 5.1.2 of FIPS 197). */
  function ShiftRows(b: Block): Block {
    Block(Col(b.c0.r0, b.c1.r1, b.c2.r2, b.c3.r3), Col(b.c1.r0, b.c2.r1, b.c3.r2, b.c0.r3),
          Col(b.c2.r0, b.c3.r1, b.c0.r2, b.c1.r3), Col(b.c3.r0, b.c0.r1, b.c1.r2, b.c2.r3))
  }

  function InvShiftRows(b: Block): Block {
    Block(Col(b.c0.r0, b.c3.r1, b.c2.r2, b.c1.r3), Col(b.c1.r0, b.c0.r1, b.c3.r2, b.c2.r3),
          Col(b.c2.r0, b.c1.r1, b.c0.r2, b.c3.r3), Col(b.c3.r0, b.c2.r1, b.c1.r2, b.c0.r3))
  }

  function MixColumns(b: Block): Block { Block(MixCol(b.c0), MixCol(b.c1), MixCol(b.c2), MixCol(b.c3)) }

  function InvMixColumns(b: Block): Block { Block(UnmixCol(b.c0), UnmixCol(b.c1), UnmixCol(b.c2), UnmixCol(b.c3)) }

  function AddKey(b: Block, k: Block): Block {
    Block(XorCol(b.c0, k.c0), XorCol(b.c1, k.c1), XorCol(b.c2, k.c2), XorCol(b.c3, k.c3))
  }

  lemma {:induction false} XorTwice(a: Byte, b: Byte)
    ensures Xor(Xor(a, b), b) == a
  {
  }

  lemma {:induction false} XorColTwice(a: Col, b: Col)
    ensures XorCol(XorCol(a, b), b) == a
  {
    XorTwice(a.r0, b.r0);
    XorTwice(a.r1, b.r1);
    XorTwice(a.r2, b.r2);
    XorTwice(a.r3, b.r3);
  }

  lemma {:induction false} AddKeyTwice(b: Block, k: Block)
    ensures AddKey(AddKey(b, k), k) == b
  {
    XorColTwice(b.c0, k.c0);
    XorColTwice(b.c1, k.c1);
    XorColTwice(b.c2, k.c2);
    XorColTwice(b.c3, k.c3);
  }

  lemma {:induction false} InvSubBytesUndoes(b: Block)
    ensures InvSubBytes(SubBytes(b)) == b
  {
    InvSubColUndoes(b.c0);
    InvSubColUndoes(b.c1);
    InvSubColUndoes(b.c2);
    InvSubColUndoes(b.c3);
  }

  /** InvSubBytes and InvShiftRows commute, and together undo ShiftRows of SubBytes. */
  lemma {:induction false} InvShiftSub(b: Block)
    ensures InvShiftRows(InvSubBytes(b)) == InvSubBytes(InvShiftRows(b))
    ensures InvShiftRows(ShiftRows(b)) == b
    ensures InvShiftRows(InvSubBytes(ShiftRows(SubBytes(b)))) == b
  {
    InvSubBytesUndoes(b);
    assert InvSubBytes(ShiftRows(SubBytes(b))) == ShiftRows(InvSubBytes(SubBytes(b)));
  }

  lemma {:induction false} InvMixUndoes(b: Block)
    ensures InvMixColumns(MixColumns(b)) == b
  {
    UnmixUndoes(b.c0);
    UnmixUndoes(b.c1);
    UnmixUndoes(b.c2);
    UnmixUndoes(b.c3);
  }

  lemma {:induction false} InvMixLinear(b: Block, k: Block)
    ensures InvMixColumns(AddKey(b, k)) == AddKey(InvMixColumns(b), InvMixColumns(k))
  {
    UnmixLinear(b.c0, k.c0);
    UnmixLinear(b.c1, k.c1);
    UnmixLinear(b.c2, k.c2);
    UnmixLinear(b.c3, k.c3);
  }

  // ---------------------------------------------------------------- the cipher and its inverses

  ghost function FullRound(x: Block, k: Block): Block { AddKey(MixColumns(ShiftRows(SubBytes(x))), k) }

  ghost function LastRound(x: Block, k: Block): Block { AddKey(ShiftRows(SubBytes(x)), k) }

  ghost function InvFullRound(x: Block, k: Block): Block { AddKey(InvMixColumns(InvShiftRows(InvSubBytes(x))), k) }

  ghost function InvLastRound(x: Block, k: Block): Block { AddKey(InvShiftRows(InvSubBytes(x)), k) }

  /** A round of InvCipher. */
  ghost function InvRound(x: Block, k: Block): Block { InvMixColumns(AddKey(InvSubBytes(InvShiftRows(x)), k)) }

  ghost function ShiftSub(x: Block): Block { ShiftRows(SubBytes(x)) }

  /** The rounds 1 to i. */
  ghost function Iterate(f: (Block, Block) -> Block, rk: seq<Block>, i: nat, x: Block): Block
    requires i < |rk|
  {
    if i == 0 then x else f(Iterate(f, rk, i - 1, x), rk[i])
  }

  /** The rounds |rk| - 2 down to i. */
  ghost function IterateDown(f: (Block, Block) -> Block, rk: seq<Block>, i: nat, x: Block): Block
    requires i < |rk|
    decreases |rk| - i
  {
    if i == |rk| - 1 then x else f(IterateDown(f, rk, i + 1, x), rk[i])
  }

  /** The state after AddRoundKey with rk[0] and `i` full rounds. */
  ghost function EncRounds(rk: seq<Block>, i: nat, b: Block): Block
    requires i < |rk|
  {
    Iterate(FullRound, rk, i, AddKey(b, rk[0]))
  }

  /** Cipher (section 5.1 of FIPS 197) with the round keys rk, one more than there are rounds. */
  ghost function Cipher(rk: seq<Block>, b: Block): Block
    requires |rk| > 1
  {
    LastRound(EncRounds(rk, |rk| - 2, b), rk[|rk| - 1])
  }

  /** The state of InvCipher (section 5.3) after the last round key and the rounds down to `i`. */
  ghost function InvRounds(rk: seq<Block>, i: nat, b: Block): Block
    requires 0 < i < |rk|
  {
    IterateDown(InvRound, rk, i, AddKey(b, rk[|rk| - 1]))
  }

  ghost function InvCipher(rk: seq<Block>, b: Block): Block
    requires |rk| > 1
  {
    AddKey(InvSubBytes(InvShiftRows(InvRounds(rk, 1, b))), rk[0])
  }

  /** The state of EqInvCipher (section 5.3.5): dk are the decryption round keys. */
  ghost function EqInvRounds(dk: seq<Block>, i: nat, b: Block): Block
    requires 0 < i < |dk|
  {
    IterateDown(InvFullRound, dk, i, AddKey(b, dk[|dk| - 1]))
  }

  ghost function EqInvCipher(dk: seq<Block>, b: Block): Block
    requires |dk| > 1
  {
    InvLastRound(EqInvRounds(dk, 1, b), dk[0])
  }

  /** The decryption keys: InvMixColumns of every round key but the first and the last. */
  ghost predicate DecryptionKeys(rk: seq<Block>, dk: seq<Block>) {
    && |rk| == |dk| > 1
    && dk[0] == rk[0] && dk[|dk| - 1] == rk[|rk| - 1]
    && forall i :: 0 < i < |rk| - 1 ==> dk[i] == InvMixColumns(rk[i])
  }

  lemma {:induction false} EqInvRoundIs(s: Block, k: Block)
    ensures InvFullRound(s, InvMixColumns(k)) == InvRound(s, k)
  {
    InvShiftSub(s);
    InvMixLinear(InvSubBytes(InvShiftRows(s)), k);
  }

  lemma {:induction false} IteratesAgree(f: (Block, Block) -> Block, g: (Block, Block) -> Block, m: Block -> Block,
                                         rk: seq<Block>, dk: seq<Block>, i: nat, b: Block)
    requires |rk| == |dk| > 1 && 0 < i < |rk|
    requires forall j :: 0 < j < |rk| - 1 ==> dk[j] == m(rk[j])
    requires forall s, k {:trigger g(s, k)} :: f(s, m(k)) == g(s, k)
    ensures IterateDown(f, dk, i, b) == IterateDown(g, rk, i, b)
    decreases |rk| - i
  {
    if i < |rk| - 1 { IteratesAgree(f, g, m, rk, dk, i + 1, b); }
  }

  lemma {:induction false} EqInvRoundsIs(rk: seq<Block>, dk: seq<Block>, i: nat, b: Block)
    requires DecryptionKeys(rk, dk) && 0 < i < |rk|
    ensures EqInvRounds(dk, i, b) == InvRounds(rk, i, b)
  {
    forall s, k ensures InvFullRound(s, InvMixColumns(k)) == InvRound(s, k) { EqInvRoundIs(s, k); }
    IteratesAgree(InvFullRound, InvRound, InvMixColumns, rk, dk, i, AddKey(b, rk[|rk| - 1]));
  }

  /** The equivalent inverse cipher computes the inverse cipher. */
  lemma {:induction false} EqInvCipherIs(rk: seq<Block>, dk: seq<Block>, b: Block)
    requires DecryptionKeys(rk, dk)
    ensures EqInvCipher(dk, b) == InvCipher(rk, b)
  {
    EqInvRoundsIs(rk, dk, 1, b);
    InvShiftSub(InvRounds(rk, 1, b));
  }

  lemma {:induction false} InvShiftSubUndoes(e: Block)
    ensures InvSubBytes(InvShiftRows(ShiftSub(e))) == e
  {
    InvShiftSub(e);
    InvShiftSub(ShiftRows(SubBytes(e)));
  }

  /** A round of the inverse cipher undoes a round, between the points where the two are cut. */
  lemma {:induction false} RoundUndone(x: Block, k: Block)
    ensures InvRound(ShiftSub(FullRound(x, k)), k) == ShiftSub(x)
  {
    InvShiftSubUndoes(FullRound(x, k));
    AddKeyTwice(MixColumns(ShiftSub(x)), k);
    InvMixUndoes(ShiftSub(x));
  }

  /** Rounds r that undo the rounds f, cut at h, undo them in any number. */
  lemma {:induction false} RoundsUndone(f: (Block, Block) -> Block, h: Block -> Block, r: (Block, Block) -> Block,
                                        rk: seq<Block>, i: nat, x: Block)
    requires 0 < i < |rk|
    requires forall x, k {:trigger f(x, k)} :: r(h(f(x, k)), k) == h(x)
    ensures IterateDown(r, rk, i, h(Iterate(f, rk, |rk| - 2, x))) == h(Iterate(f, rk, i - 1, x))
    decreases |rk| - i
  {
    if i < |rk| - 1 { RoundsUndone(f, h, r, rk, i + 1, x); }
  }

  /** InvCipher undoes Cipher, for any round keys. */
  lemma {:induction false} InvCipherUndoes(rk: seq<Block>, b: Block)
    requires |rk| > 1
    ensures InvCipher(rk, Cipher(rk, b)) == b
  {
    var x := AddKey(b, rk[0]);
    var last := ShiftSub(Iterate(FullRound, rk, |rk| - 2, x));
    assert InvRounds(rk, 1, Cipher(rk, b)) == IterateDown(InvRound, rk, 1, last) by {
      AddKeyTwice(last, rk[|rk| - 1]);
    }
    assert IterateDown(InvRound, rk, 1, last) == ShiftSub(x) by {
      forall x, k ensures InvRound(ShiftSub(FullRound(x, k)), k) == ShiftSub(x) {
        RoundUndone(x, k);
      }
      RoundsUndone(FullRound, ShiftSub, InvRound, rk, 1, x);
    }
    InvShiftSubUndoes(x);
    AddKeyTwice(b, rk[0]);
  }
}
