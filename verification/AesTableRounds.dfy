// The rounds of aes_encrypt and aes_decrypt: four table look-ups for each word.
module AesTableRounds {
  import opened Gf256
  import opened AesSpec
  import opened AesWords
  import opened AesRounds
  import opened AesTables

  // ---------------------------------------------------------------- look-ups

  lemma {:induction false} SubIndex(b: Byte)
    ensures Val(b) as int < 256
    ensures SubNo(Val(b) as int) == Sub(b) && InvSubNo(Val(b) as int) == InvSub(b)
  {
    NoOfByte(Val(b));
  }

  /** The four entries of a table that a word adds up: row n of the input indexes table n. */
  ghost function Entries(tab: array2<Col>, a: Byte, b: Byte, c: Byte, d: Byte): Col
    reads tab
    requires tab.Length0 == 4 && tab.Length1 == 256
  {
    Four4(tab[0, Val(a) as int], tab[1, Val(b) as int], tab[2, Val(c) as int], tab[3, Val(d) as int])
  }

  lemma {:induction false} LastAt(fl: array2<Col>, b: Byte)
    requires LastTable(fl, 256)
    ensures Holds(fl, Val(b) as int, LastPart(Sub(b)))
  {
    SubIndex(b);
  }

  lemma {:induction false} LastSum(e0: Col, e1: Col, e2: Col, e3: Col, s: Col)
    requires e0 == LastPart(s.r0) && e1 == RotDown(LastPart(s.r1))
    requires e2 == RotDown(RotDown(LastPart(s.r2))) && e3 == RotDown(RotDown(RotDown(LastPart(s.r3))))
    ensures Four4(e0, e1, e2, e3) == s
  {
    LastParts(s);
  }

  lemma {:induction false} LastEntries(fl: array2<Col>, a: Byte, b: Byte, c: Byte, d: Byte)
    requires LastTable(fl, 256)
    ensures Entries(fl, a, b, c, d) == Col(Sub(a), Sub(b), Sub(c), Sub(d))
  {
    LastAt(fl, a);
    LastAt(fl, b);
    LastAt(fl, c);
    LastAt(fl, d);
    LastSum(fl[0, Val(a) as int], fl[1, Val(b) as int], fl[2, Val(c) as int], fl[3, Val(d) as int],
      Col(Sub(a), Sub(b), Sub(c), Sub(d)));
  }

  lemma {:induction false} RoundAt(ft: array2<Col>, b: Byte)
    requires RoundTable(ft, 256)
    ensures Holds(ft, Val(b) as int, MixPart(Sub(b)))
  {
    SubIndex(b);
  }

  lemma {:induction false} RoundSum(e0: Col, e1: Col, e2: Col, e3: Col, s: Col)
    requires e0 == MixPart(s.r0) && e1 == RotDown(MixPart(s.r1))
    requires e2 == RotDown(RotDown(MixPart(s.r2))) && e3 == RotDown(RotDown(RotDown(MixPart(s.r3))))
    ensures Four4(e0, e1, e2, e3) == MixCol(s)
  {
    MixParts(s);
  }

  lemma {:induction false} RoundEntries(ft: array2<Col>, a: Byte, b: Byte, c: Byte, d: Byte)
    requires RoundTable(ft, 256)
    ensures Entries(ft, a, b, c, d) == MixCol(Col(Sub(a), Sub(b), Sub(c), Sub(d)))
  {
    RoundAt(ft, a);
    RoundAt(ft, b);
    RoundAt(ft, c);
    RoundAt(ft, d);
    RoundSum(ft[0, Val(a) as int], ft[1, Val(b) as int], ft[2, Val(c) as int], ft[3, Val(d) as int],
      Col(Sub(a), Sub(b), Sub(c), Sub(d)));
  }

  lemma {:induction false} InvLastAt(il: array2<Col>, b: Byte)
    requires InvLastTable(il, 256)
    ensures Holds(il, Val(b) as int, LastPart(InvSub(b)))
  {
    SubIndex(b);
  }

  lemma {:induction false} InvLastEntries(il: array2<Col>, a: Byte, b: Byte, c: Byte, d: Byte)
    requires InvLastTable(il, 256)
    ensures Entries(il, a, b, c, d) == Col(InvSub(a), InvSub(b), InvSub(c), InvSub(d))
  {
    InvLastAt(il, a);
    InvLastAt(il, b);
    InvLastAt(il, c);
    InvLastAt(il, d);
    LastSum(il[0, Val(a) as int], il[1, Val(b) as int], il[2, Val(c) as int], il[3, Val(d) as int],
      Col(InvSub(a), InvSub(b), InvSub(c), InvSub(d)));
  }

  lemma {:induction false} InvRoundAt(it: array2<Col>, b: Byte)
    requires InvRoundTable(it, 256)
    ensures Holds(it, Val(b) as int, UnmixPart(InvSub(b)))
  {
    SubIndex(b);
  }

  lemma {:induction false} InvRoundSum(e0: Col, e1: Col, e2: Col, e3: Col, s: Col)
    requires e0 == UnmixPart(s.r0) && e1 == RotDown(UnmixPart(s.r1))
    requires e2 == RotDown(RotDown(UnmixPart(s.r2))) && e3 == RotDown(RotDown(RotDown(UnmixPart(s.r3))))
    ensures Four4(e0, e1, e2, e3) == UnmixCol(s)
  {
    UnmixParts(s);
  }

  lemma {:induction false} InvRoundEntries(it: array2<Col>, a: Byte, b: Byte, c: Byte, d: Byte)
    requires InvRoundTable(it, 256)
    ensures Entries(it, a, b, c, d) == UnmixCol(Col(InvSub(a), InvSub(b), InvSub(c), InvSub(d)))
  {
    InvRoundAt(it, a);
    InvRoundAt(it, b);
    InvRoundAt(it, c);
    InvRoundAt(it, d);
    InvRoundSum(it[0, Val(a) as int], it[1, Val(b) as int], it[2, Val(c) as int], it[3, Val(d) as int],
      Col(InvSub(a), InvSub(b), InvSub(c), InvSub(d)));
  }

  /** One word of a round: four look-ups and the round key. */
  method Look(tab: array2<Col>, a: Byte, b: Byte, c: Byte, d: Byte, k: Col) returns (w: Col)
    requires tab.Length0 == 4 && tab.Length1 == 256
    ensures w == XorCol(Entries(tab, a, b, c, d), k)
  {
    w := XorCol(Four4(tab[0, Val(a) as int], tab[1, Val(b) as int], tab[2, Val(c) as int], tab[3, Val(d) as int]), k);
  }

  // ---------------------------------------------------------------- rounds

  /** The four words of an array from word k on. */
  ghost function BlockIn(a: array<Col>, k: nat): Block
    reads a
    requires k + 4 <= a.Length
  {
    Block(a[k], a[k + 1], a[k + 2], a[k + 3])
  }

  /** The word formulas of f_rn and f_rl. */
  ghost function ForwardBlock(tab: array2<Col>, b: Block, k: Block): Block
    reads tab
    requires tab.Length0 == 4 && tab.Length1 == 256
  {
    Block(XorCol(Entries(tab, b.c0.r0, b.c1.r1, b.c2.r2, b.c3.r3), k.c0),
          XorCol(Entries(tab, b.c1.r0, b.c2.r1, b.c3.r2, b.c0.r3), k.c1),
          XorCol(Entries(tab, b.c2.r0, b.c3.r1, b.c0.r2, b.c1.r3), k.c2),
          XorCol(Entries(tab, b.c3.r0, b.c0.r1, b.c1.r2, b.c2.r3), k.c3))
  }

  /** The word formulas of i_rn and i_rl. */
  ghost function BackwardBlock(tab: array2<Col>, b: Block, k: Block): Block
    reads tab
    requires tab.Length0 == 4 && tab.Length1 == 256
  {
    Block(XorCol(Entries(tab, b.c0.r0, b.c3.r1, b.c2.r2, b.c1.r3), k.c0),
          XorCol(Entries(tab, b.c1.r0, b.c0.r1, b.c3.r2, b.c2.r3), k.c1),
          XorCol(Entries(tab, b.c2.r0, b.c1.r1, b.c0.r2, b.c3.r3), k.c2),
          XorCol(Entries(tab, b.c3.r0, b.c2.r1, b.c1.r2, b.c0.r3), k.c3))
  }

  /** The four words of a forward round: f_rn or f_rl. */
  method Forward(tab: array2<Col>, bi: Block, buf: array<Col>, kp: nat) returns (bo: Block)
    requires tab.Length0 == 4 && tab.Length1 == 256 && kp + 4 <= buf.Length
    ensures bo == ForwardBlock(tab, bi, BlockIn(buf, kp))
  {
    var w0 := Look(tab, bi.c0.r0, bi.c1.r1, bi.c2.r2, bi.c3.r3, buf[kp]);
    var w1 := Look(tab, bi.c1.r0, bi.c2.r1, bi.c3.r2, bi.c0.r3, buf[kp + 1]);
    var w2 := Look(tab, bi.c2.r0, bi.c3.r1, bi.c0.r2, bi.c1.r3, buf[kp + 2]);
    var w3 := Look(tab, bi.c3.r0, bi.c0.r1, bi.c1.r2, bi.c2.r3, buf[kp + 3]);
    bo := Block(w0, w1, w2, w3);
  }

  /** The four words of an inverse round: i_rn or i_rl. */
  method Backward(tab: array2<Col>, bi: Block, buf: array<Col>, kp: nat) returns (bo: Block)
    requires tab.Length0 == 4 && tab.Length1 == 256 && kp + 4 <= buf.Length
    ensures bo == BackwardBlock(tab, bi, BlockIn(buf, kp))
  {
    var w0 := Look(tab, bi.c0.r0, bi.c3.r1, bi.c2.r2, bi.c1.r3, buf[kp]);
    var w1 := Look(tab, bi.c1.r0, bi.c0.r1, bi.c3.r2, bi.c2.r3, buf[kp + 1]);
    var w2 := Look(tab, bi.c2.r0, bi.c1.r1, bi.c0.r2, bi.c3.r3, buf[kp + 2]);
    var w3 := Look(tab, bi.c3.r0, bi.c2.r1, bi.c1.r2, bi.c0.r3, buf[kp + 3]);
    bo := Block(w0, w1, w2, w3);
  }

  lemma {:induction false} RoundBlock(ft: array2<Col>, b: Block, k: Block)
    requires RoundTable(ft, 256)
    ensures ForwardBlock(ft, b, k) == AddKey(MixColumns(ShiftRows(SubBytes(b))), k)
  {
    RoundEntries(ft, b.c0.r0, b.c1.r1, b.c2.r2, b.c3.r3);
    RoundEntries(ft, b.c1.r0, b.c2.r1, b.c3.r2, b.c0.r3);
    RoundEntries(ft, b.c2.r0, b.c3.r1, b.c0.r2, b.c1.r3);
    RoundEntries(ft, b.c3.r0, b.c0.r1, b.c1.r2, b.c2.r3);
  }

  lemma {:induction false} LastBlock(fl: array2<Col>, b: Block, k: Block)
    requires LastTable(fl, 256)
    ensures ForwardBlock(fl, b, k) == AddKey(ShiftRows(SubBytes(b)), k)
  {
    LastEntries(fl, b.c0.r0, b.c1.r1, b.c2.r2, b.c3.r3);
    LastEntries(fl, b.c1.r0, b.c2.r1, b.c3.r2, b.c0.r3);
    LastEntries(fl, b.c2.r0, b.c3.r1, b.c0.r2, b.c1.r3);
    LastEntries(fl, b.c3.r0, b.c0.r1, b.c1.r2, b.c2.r3);
  }

  lemma {:induction false} InvRoundBlock(it: array2<Col>, b: Block, k: Block)
    requires InvRoundTable(it, 256)
    ensures BackwardBlock(it, b, k) == AddKey(InvMixColumns(InvShiftRows(InvSubBytes(b))), k)
  {
    InvRoundEntries(it, b.c0.r0, b.c3.r1, b.c2.r2, b.c1.r3);
    InvRoundEntries(it, b.c1.r0, b.c0.r1, b.c3.r2, b.c2.r3);
    InvRoundEntries(it, b.c2.r0, b.c1.r1, b.c0.r2, b.c3.r3);
    InvRoundEntries(it, b.c3.r0, b.c2.r1, b.c1.r2, b.c0.r3);
  }

  lemma {:induction false} InvLastBlock(il: array2<Col>, b: Block, k: Block)
    requires InvLastTable(il, 256)
    ensures BackwardBlock(il, b, k) == AddKey(InvShiftRows(InvSubBytes(b)), k)
  {
    InvLastEntries(il, b.c0.r0, b.c3.r1, b.c2.r2, b.c1.r3);
    InvLastEntries(il, b.c1.r0, b.c0.r1, b.c3.r2, b.c2.r3);
    InvLastEntries(il, b.c2.r0, b.c1.r1, b.c0.r2, b.c3.r3);
    InvLastEntries(il, b.c3.r0, b.c2.r1, b.c1.r2, b.c0.r3);
  }

  // ---------------------------------------------------------------- rounds as functions of state and key

  /** The forward look-ups in the table compute the round f. */
  ghost predicate Computes(tab: array2<Col>, f: (Block, Block) -> Block)
    reads tab
  {
    tab.Length0 == 4 && tab.Length1 == 256
    && forall x, k {:trigger ForwardBlock(tab, x, k)} :: ForwardBlock(tab, x, k) == f(x, k)
  }

  /** The inverse look-ups in the table compute the round f. */
  ghost predicate ComputesInverse(tab: array2<Col>, f: (Block, Block) -> Block)
    reads tab
  {
    tab.Length0 == 4 && tab.Length1 == 256
    && forall x, k {:trigger BackwardBlock(tab, x, k)} :: BackwardBlock(tab, x, k) == f(x, k)
  }

  lemma {:induction false} ForwardRounds(ft: array2<Col>, fl: array2<Col>, f: (Block, Block) -> Block,
                                         g: (Block, Block) -> Block)
    requires RoundTable(ft, 256) && LastTable(fl, 256)
    requires forall x, k {:trigger FullRound(x, k)} :: f(x, k) == FullRound(x, k)
    requires forall x, k {:trigger LastRound(x, k)} :: g(x, k) == LastRound(x, k)
    ensures Computes(ft, f) && Computes(fl, g)
  {
    forall x, k ensures ForwardBlock(ft, x, k) == f(x, k) {
      RoundBlock(ft, x, k);
      assert f(x, k) == FullRound(x, k);
    }
    forall x, k ensures ForwardBlock(fl, x, k) == g(x, k) {
      LastBlock(fl, x, k);
      assert g(x, k) == LastRound(x, k);
    }
  }

  lemma {:induction false} InverseRounds(it: array2<Col>, il: array2<Col>)
    requires InvRoundTable(it, 256) && InvLastTable(il, 256)
    ensures ComputesInverse(it, InvFullRound) && ComputesInverse(il, InvLastRound)
  {
    forall x, k ensures BackwardBlock(it, x, k) == InvFullRound(x, k) { InvRoundBlock(it, x, k); }
    forall x, k ensures BackwardBlock(il, x, k) == InvLastRound(x, k) { InvLastBlock(il, x, k); }
  }

  /** f_nround */
  method FNround(ft: array2<Col>, bi: Block, buf: array<Col>, kp: nat, ghost f: (Block, Block) -> Block)
      returns (bo: Block, k: nat)
    requires Computes(ft, f) && kp + 4 <= buf.Length
    ensures k == kp + 4 && bo == f(bi, BlockIn(buf, kp))
  {
    bo := Forward(ft, bi, buf, kp);
    k := kp + 4;
  }

  /** i_nround */
  method INround(it: array2<Col>, bi: Block, buf: array<Col>, kp: nat, ghost f: (Block, Block) -> Block)
      returns (bo: Block, k: int)
    requires ComputesInverse(it, f) && kp + 4 <= buf.Length
    ensures k == kp - 4 && bo == f(bi, BlockIn(buf, kp))
  {
    bo := Backward(it, bi, buf, kp);
    k := kp - 4;
  }
}
