// The word formulas of aes.c against the columns of the cipher: imix_col is InvMixColumns, and the four table entries
// that a round adds up are the parts of a mixed column.
module AesRounds {
  import opened Gf256
  import opened AesSpec
  import opened AesWords

  // ---------------------------------------------------------------- imix_col

  lemma {:induction false} Gather(a: Byte, b: Byte, c: Byte, d: Byte)
    ensures Xor(a, Xor(Xor(b, c), d)) == Xor(Xor(a, b), Xor(c, d))
  {
    XorAssoc(b, c, d);
    XorAssoc(a, b, Xor(c, d));
  }

  /** A row of imix_col is a row of InvMixColumns. */
  lemma {:induction false} ImixRow(times: (Poly, Byte) -> Byte, a: Byte, b: Byte, c: Byte, d: Byte)
    requires Multiplies(times)
    ensures Xor(Xor(Xor(Xtime(a), Xtime(Xtime(a))), Xtime(Xtime(Xtime(a)))),
                Xor(Xor(Xor(Xtime(b), Xor(Xtime(Xtime(Xtime(b))), b)),
                        Xor(Xtime(Xtime(c)), Xor(Xtime(Xtime(Xtime(c))), c))),
                    Xor(Xtime(Xtime(Xtime(d))), d))) ==
            Xor(Xor(times(P14, a), times(P11, b)), Xor(times(P13, c), times(P9, d)))
  {
    SmallTimes(a);
    SmallTimes(b);
    SmallTimes(c);
    SmallTimes(d);
    Gather(Times(P14, a), Times(P11, b), Times(P13, c), Times(P9, d));
  }

  /** imix_col; star_x acts on each byte of the word, as ColStar shows. */
  function ImixCol(x: Col): Col {
    var u := XtimeCol(x);
    var v := XtimeCol(u);
    var w := XtimeCol(v);
    var t := XorCol(w, x);
    XorCol(XorCol(XorCol(u, v), w),
           XorCol(XorCol(RotUp(XorCol(u, t)), RotUp(RotUp(XorCol(v, t)))), RotUp(RotUp(RotUp(t)))))
  }

  /** imix_col is InvMixColumns on one column. */
  lemma {:induction false} ImixIs(c: Col)
    ensures ImixCol(c) == UnmixCol(c)
  {
    ImixRow(Times, c.r0, c.r1, c.r2, c.r3);
    ImixRow(Times, c.r1, c.r2, c.r3, c.r0);
    ImixRow(Times, c.r2, c.r3, c.r0, c.r1);
    ImixRow(Times, c.r3, c.r0, c.r1, c.r2);
  }

  // ---------------------------------------------------------------- the columns the tables hold

  /** What a substituted byte of row 0 adds to its column of MixColumns. */
  function MixPart(s: Byte): Col { Col(Xtime(s), s, s, Times3(s)) }

  function UnmixPart(s: Byte): Col { Col(Times(P14, s), Times(P9, s), Times(P13, s), Times(P11, s)) }

  function LastPart(s: Byte): Col { Col(s, ZERO, ZERO, ZERO) }

  function Four4(a: Col, b: Col, c: Col, d: Col): Col { XorCol(XorCol(XorCol(a, b), c), d) }

  lemma {:induction false} MixPartRow0(a: Byte, b: Byte, c: Byte, d: Byte)
    ensures Xor(Xor(Xor(Xtime(a), Times3(b)), c), d) == MixRow(a, b, c, d)
  {
    XorAssoc(Xor(Xtime(a), Times3(b)), c, d);
  }

  lemma {:induction false} MixPartRow1(a: Byte, b: Byte, c: Byte, d: Byte)
    ensures Xor(Xor(Xor(a, Xtime(b)), Times3(c)), d) == MixRow(b, c, d, a)
  {
    XorAssoc(Xor(a, Xtime(b)), Times3(c), d);
    Rotate(Xtime(b), Times3(c), d, a);
  }

  lemma {:induction false} MixPartRow2(a: Byte, b: Byte, c: Byte, d: Byte)
    ensures Xor(Xor(Xor(a, b), Xtime(c)), Times3(d)) == MixRow(c, d, a, b)
  {
    XorAssoc(Xor(a, b), Xtime(c), Times3(d));
    XorComm(Xor(a, b), Xor(Xtime(c), Times3(d)));
  }

  lemma {:induction false} MixPartRow3(a: Byte, b: Byte, c: Byte, d: Byte)
    ensures Xor(Xor(Xor(Times3(a), b), c), Xtime(d)) == MixRow(d, a, b, c)
  {
    XorAssoc(Xor(Times3(a), b), c, Xtime(d));
    Rotate(Times3(a), b, c, Xtime(d));
  }

  lemma {:induction false} MixParts(s: Col)
    ensures Four4(MixPart(s.r0), RotDown(MixPart(s.r1)), RotDown(RotDown(MixPart(s.r2))),
                  RotDown(RotDown(RotDown(MixPart(s.r3))))) == MixCol(s)
  {
    MixPartRow0(s.r0, s.r1, s.r2, s.r3);
    MixPartRow1(s.r0, s.r1, s.r2, s.r3);
    MixPartRow2(s.r0, s.r1, s.r2, s.r3);
    MixPartRow3(s.r0, s.r1, s.r2, s.r3);
  }

  lemma {:induction false} UnmixPartRow0(a: Byte, b: Byte, c: Byte, d: Byte)
    ensures Xor(Xor(Xor(Times(P14, a), Times(P11, b)), Times(P13, c)), Times(P9, d)) == UnmixRow(a, b, c, d)
  {
    XorAssoc(Xor(Times(P14, a), Times(P11, b)), Times(P13, c), Times(P9, d));
  }

  lemma {:induction false} UnmixPartRow1(a: Byte, b: Byte, c: Byte, d: Byte)
    ensures Xor(Xor(Xor(Times(P9, a), Times(P14, b)), Times(P11, c)), Times(P13, d)) == UnmixRow(b, c, d, a)
  {
    XorAssoc(Xor(Times(P9, a), Times(P14, b)), Times(P11, c), Times(P13, d));
    Rotate(Times(P14, b), Times(P11, c), Times(P13, d), Times(P9, a));
  }

  lemma {:induction false} UnmixPartRow2(a: Byte, b: Byte, c: Byte, d: Byte)
    ensures Xor(Xor(Xor(Times(P13, a), Times(P9, b)), Times(P14, c)), Times(P11, d)) == UnmixRow(c, d, a, b)
  {
    XorAssoc(Xor(Times(P13, a), Times(P9, b)), Times(P14, c), Times(P11, d));
    XorComm(Xor(Times(P13, a), Times(P9, b)), Xor(Times(P14, c), Times(P11, d)));
  }

  lemma {:induction false} UnmixPartRow3(a: Byte, b: Byte, c: Byte, d: Byte)
    ensures Xor(Xor(Xor(Times(P11, a), Times(P13, b)), Times(P9, c)), Times(P14, d)) == UnmixRow(d, a, b, c)
  {
    XorAssoc(Xor(Times(P11, a), Times(P13, b)), Times(P9, c), Times(P14, d));
    Rotate(Times(P11, a), Times(P13, b), Times(P9, c), Times(P14, d));
  }

  lemma {:induction false} UnmixParts(s: Col)
    ensures Four4(UnmixPart(s.r0), RotDown(UnmixPart(s.r1)), RotDown(RotDown(UnmixPart(s.r2))),
                  RotDown(RotDown(RotDown(UnmixPart(s.r3))))) == UnmixCol(s)
  {
    UnmixPartRow0(s.r0, s.r1, s.r2, s.r3);
    UnmixPartRow1(s.r0, s.r1, s.r2, s.r3);
    UnmixPartRow2(s.r0, s.r1, s.r2, s.r3);
    UnmixPartRow3(s.r0, s.r1, s.r2, s.r3);
  }

  lemma {:induction false} LastParts(s: Col)
    ensures Four4(LastPart(s.r0), RotDown(LastPart(s.r1)), RotDown(RotDown(LastPart(s.r2))),
                  RotDown(RotDown(RotDown(LastPart(s.r3))))) == s
  {
    XorZero(s.r0);
    XorZero(s.r1);
    XorZero(s.r2);
    XorZero(s.r3);
    XorZero(ZERO);
  }
}
