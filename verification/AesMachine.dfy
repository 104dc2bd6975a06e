// The computation of aes.c on 32-bit words: table entries with their rotated copies, imix_col, the round macros, the
// key schedule, and whole encryptions and decryptions. Read as columns (module AesWords), each is the operation of FIPS
// 197 that the other AES modules use, so the round trip holds of the words themselves.
module AesMachine {
  import opened Gf256
  import opened AesSpec
  import opened AesWords
  import opened AesRounds
  import opened AesTables
  import opened AesTableRounds
  import Aes

  // ---------------------------------------------------------------- words and what is known of them

  /** The operations of aes.c on words, and the column a word stands for. */
  datatype Ops<!W> = Ops(
    xor: (W, W) -> W,
    ror: (W, nat) -> W,                      // ror32
    rol: (W, nat) -> W,                      // rol32
    star: W -> W,                            // star_x
    byte: (W, nat) -> nat,                   // byte(x, n), as an index
    word: (bv8, bv8, bv8, bv8) -> W,         // four bytes put together, least significant first
    col: W -> Col)

  function RowOf(c: Col, n: nat): Byte {
    if n == 0 then c.r0 else if n == 1 then c.r1 else if n == 2 then c.r2 else c.r3
  }

  ghost predicate RorLaw<W(!new)>(o: Ops<W>) {
    && (forall x :: o.col(o.ror(x, 8)) == RotUp(o.col(x)))
    && (forall x :: o.col(o.ror(x, 16)) == RotUp(RotUp(o.col(x))))
    && (forall x :: o.col(o.ror(x, 24)) == RotUp(RotUp(RotUp(o.col(x)))))
  }

  ghost predicate RolLaw<W(!new)>(o: Ops<W>) {
    && (forall x :: o.col(o.rol(x, 8)) == RotDown(o.col(x)))
    && (forall x :: o.col(o.rol(x, 16)) == RotDown(RotDown(o.col(x))))
    && (forall x :: o.col(o.rol(x, 24)) == RotDown(RotDown(RotDown(o.col(x)))))
  }

  ghost predicate XorLaw<W(!new)>(o: Ops<W>) { forall x, y :: o.col(o.xor(x, y)) == XorCol(o.col(x), o.col(y)) }

  ghost predicate StarLaw<W(!new)>(o: Ops<W>) { forall x :: o.col(o.star(x)) == XtimeCol(o.col(x)) }

  ghost predicate ByteLaw<W(!new)>(o: Ops<W>) {
    forall x, n: nat {:trigger o.byte(x, n)} :: n < 4 ==> o.byte(x, n) == Val(RowOf(o.col(x), n)) as int
  }

  ghost predicate WordLaw<W(!new)>(o: Ops<W>) {
    forall a, b, c, d :: o.col(o.word(a, b, c, d)) == Col(ByteOf(a), ByteOf(b), ByteOf(c), ByteOf(d))
  }

  /** A word is known by its column. */
  ghost predicate Known<W(!new)>(o: Ops<W>) {
    forall x, y {:trigger o.col(x), o.col(y)} :: o.col(x) == o.col(y) ==> x == y
  }

  /** Each operation is the one on columns. */
  ghost predicate Laws<W(!new)>(o: Ops<W>) {
    RorLaw(o) && RolLaw(o) && XorLaw(o) && StarLaw(o) && ByteLaw(o) && WordLaw(o) && Known(o)
  }

  // ---------------------------------------------------------------- imix_col

  /** imix_col */
  function ImixWord<W>(o: Ops<W>, x: W): W {
    var u := o.star(x);
    var v := o.star(u);
    var w := o.star(v);
    var t := o.xor(w, x);
    o.xor(o.xor(o.xor(u, v), w), o.xor(o.xor(o.ror(o.xor(u, t), 8), o.ror(o.xor(v, t), 16)), o.ror(t, 24)))
  }

  /** imix_col on a word is InvMixColumns on its column. */
  lemma {:induction false} ImixWordIs<W(!new)>(o: Ops<W>, x: W)
    requires Laws(o)
    ensures o.col(ImixWord(o, x)) == UnmixCol(o.col(x))
  {
    assert o.col(ImixWord(o, x)) == ImixCol(o.col(x));
    ImixIs(o.col(x));
  }

  // ---------------------------------------------------------------- tables

  type Table<W> = seq<seq<W>>

  predicate Shaped<W>(tab: Table<W>) { |tab| == 4 && |tab[0]| == |tab[1]| == |tab[2]| == |tab[3]| == 256 }

  /** Entry i of a table of gen_tabs: the word t and its copies rotated by one, two and three bytes. */
  predicate Turned<W(==)>(o: Ops<W>, tab: Table<W>, i: nat, t: W)
    requires Shaped(tab) && i < 256
  {
    tab[0][i] == t && tab[1][i] == o.rol(t, 8) && tab[2][i] == o.rol(t, 16) && tab[3][i] == o.rol(t, 24)
  }

  ghost predicate ReadsAs<W>(o: Ops<W>, tab: Table<W>, i: nat, c: Col)
    requires Shaped(tab) && i < 256
  {
    && o.col(tab[0][i]) == c && o.col(tab[1][i]) == RotDown(c)
    && o.col(tab[2][i]) == RotDown(RotDown(c)) && o.col(tab[3][i]) == RotDown(RotDown(RotDown(c)))
  }

  lemma {:induction false} TurnedReads<W(!new)>(o: Ops<W>, tab: Table<W>, i: nat, t: W)
    requires RolLaw(o) && Shaped(tab) && i < 256 && Turned(o, tab, i, t)
    ensures ReadsAs(o, tab, i, o.col(t))
  {
  }

  /** Entry i reads as part(i). */
  ghost predicate Reads<W>(o: Ops<W>, tab: Table<W>, part: nat -> Col) {
    Shaped(tab) && forall i: nat {:trigger part(i)} :: i < 256 ==> ReadsAs(o, tab, i, part(i))
  }

  ghost function MixEntry(i: nat): Col { if i < 256 then MixPart(SubNo(i)) else LastPart(ZERO) }

  ghost function LastEntry(i: nat): Col { if i < 256 then LastPart(SubNo(i)) else LastPart(ZERO) }

  ghost function UnmixEntry(i: nat): Col { if i < 256 then UnmixPart(InvSubNo(i)) else LastPart(ZERO) }

  ghost function InvLastEntry(i: nat): Col { if i < 256 then LastPart(InvSubNo(i)) else LastPart(ZERO) }

  /** The four tables of gen_tabs, read as columns. */
  ghost predicate TablesRead<W>(o: Ops<W>, ft: Table<W>, fl: Table<W>, it: Table<W>, il: Table<W>) {
    Reads(o, ft, MixEntry) && Reads(o, fl, LastEntry) && Reads(o, it, UnmixEntry) && Reads(o, il, InvLastEntry)
  }

  /** The words gen_tabs stores for an entry p of sbx_tab. */
  ghost predicate ForwardStored<W>(o: Ops<W>, pow: seq<bv8>, log: seq<nat>, ft: Table<W>, fl: Table<W>, i: nat, p: bv8)
    requires PowOk(pow) && LogOk(log) && Shaped(ft) && Shaped(fl) && i < 256
  {
    SmallLogs(log, p);
    && Turned(o, fl, i, o.word(p, 0, 0, 0))
    && Turned(o, ft, i, o.word(FFMult(pow, log, 2, p), p, p, FFMult(pow, log, 3, p)))
  }

  /** And for an entry p of isb_tab. */
  ghost predicate InverseStored<W>(o: Ops<W>, pow: seq<bv8>, log: seq<nat>, it: Table<W>, il: Table<W>, i: nat, p: bv8)
    requires PowOk(pow) && LogOk(log) && Shaped(it) && Shaped(il) && i < 256
  {
    SmallLogs(log, p);
    && Turned(o, il, i, o.word(p, 0, 0, 0))
    && Turned(o, it, i, o.word(FFMult(pow, log, 14, p), FFMult(pow, log, 9, p), FFMult(pow, log, 13, p),
        FFMult(pow, log, 11, p)))
  }

  lemma {:induction false} ByteZero()
    ensures ByteOf(0) == ZERO
  {
  }

  lemma {:induction false} ForwardReads<W(!new)>(o: Ops<W>, pow: seq<bv8>, log: seq<nat>, ft: Table<W>, fl: Table<W>,
                                                 i: nat, p: bv8)
    requires Laws(o) && PowOk(pow) && LogOk(log) && Shaped(ft) && Shaped(fl) && i < 256
    requires ForwardStored(o, pow, log, ft, fl, i, p)
    ensures ReadsAs(o, fl, i, LastPart(ByteOf(p))) && ReadsAs(o, ft, i, MixPart(ByteOf(p)))
  {
    SmallLogs(log, p);
    ByteZero();
    ForwardEntry(pow, log, p);
    TurnedReads(o, fl, i, o.word(p, 0, 0, 0));
    TurnedReads(o, ft, i, o.word(FFMult(pow, log, 2, p), p, p, FFMult(pow, log, 3, p)));
  }

  lemma {:induction false} InverseReads<W(!new)>(o: Ops<W>, pow: seq<bv8>, log: seq<nat>, it: Table<W>, il: Table<W>,
                                                 i: nat, p: bv8)
    requires Laws(o) && PowOk(pow) && LogOk(log) && Shaped(it) && Shaped(il) && i < 256
    requires InverseStored(o, pow, log, it, il, i, p)
    ensures ReadsAs(o, il, i, LastPart(ByteOf(p))) && ReadsAs(o, it, i, UnmixPart(ByteOf(p)))
  {
    SmallLogs(log, p);
    ByteZero();
    InverseEntry(pow, log, p);
    TurnedReads(o, il, i, o.word(p, 0, 0, 0));
    TurnedReads(o, it, i, o.word(FFMult(pow, log, 14, p), FFMult(pow, log, 9, p), FFMult(pow, log, 13, p),
        FFMult(pow, log, 11, p)));
  }

  /** The words gen_tabs stores make the tables the rounds need. */
  lemma {:induction false} GeneratedReads<W(!new)>(o: Ops<W>, pow: seq<bv8>, log: seq<nat>, sbx: seq<bv8>,
                                                   isb: seq<bv8>, ft: Table<W>, fl: Table<W>, it: Table<W>,
                                                   il: Table<W>)
    requires Laws(o) && PowOk(pow) && LogOk(log) && SboxTo(sbx, 256) && IsbOk(isb)
    requires Shaped(ft) && Shaped(fl) && Shaped(it) && Shaped(il)
    requires forall i :: 0 <= i < 256 ==> ForwardStored(o, pow, log, ft, fl, i, sbx[i])
    requires forall i :: 0 <= i < 256 ==> InverseStored(o, pow, log, it, il, i, isb[i])
    ensures TablesRead(o, ft, fl, it, il)
  {
    forall i: nat | i < 256 ensures ReadsAs(o, ft, i, MixEntry(i)) && ReadsAs(o, fl, i, LastEntry(i)) {
      ForwardReads(o, pow, log, ft, fl, i, sbx[i]);
    }
    forall i: nat | i < 256 ensures ReadsAs(o, it, i, UnmixEntry(i)) && ReadsAs(o, il, i, InvLastEntry(i)) {
      InverseReads(o, pow, log, it, il, i, isb[i]);
    }
  }

  // ---------------------------------------------------------------- one word of a round

  /** The table entry that byte n of a word selects from table n. */
  function Entry<W>(o: Ops<W>, tab: Table<W>, x: W, n: nat): W
    requires Shaped(tab) && n < 4
  {
    if o.byte(x, n) < 256 then tab[n][o.byte(x, n)] else x
  }

  /** ls_box, and the sum of entries in f_rn, f_rl, i_rn and i_rl. */
  function SumOf<W>(o: Ops<W>, tab: Table<W>, a: W, b: W, c: W, d: W): W
    requires Shaped(tab)
  {
    o.xor(o.xor(o.xor(Entry(o, tab, a, 0), Entry(o, tab, b, 1)), Entry(o, tab, c, 2)), Entry(o, tab, d, 3))
  }

  ghost function Index(b: Byte): nat { Val(b) as int }

  /** The sum of four columns read from a table. */
  ghost function PartSum(part: nat -> Col, a: Byte, b: Byte, c: Byte, d: Byte): Col {
    Four4(part(Index(a)), RotDown(part(Index(b))), RotDown(RotDown(part(Index(c)))),
        RotDown(RotDown(RotDown(part(Index(d))))))
  }

  lemma {:induction false} IndexIs(b: Byte)
    ensures Index(b) < 256 && SubNo(Index(b)) == Sub(b) && InvSubNo(Index(b)) == InvSub(b)
  {
    SubIndex(b);
  }

  lemma {:induction false} EntryReads<W(!new)>(o: Ops<W>, tab: Table<W>, part: nat -> Col, x: W, n: nat)
    requires Laws(o) && Reads(o, tab, part) && n < 4
    ensures var i := Index(RowOf(o.col(x), n));
            i < 256 && Entry(o, tab, x, n) == tab[n][i] && ReadsAs(o, tab, i, part(i))
  {
    IndexIs(RowOf(o.col(x), n));
  }

  lemma {:induction false} SumReads<W(!new)>(o: Ops<W>, tab: Table<W>, part: nat -> Col, a: W, b: W, c: W, d: W)
    requires Laws(o) && Reads(o, tab, part)
    ensures o.col(SumOf(o, tab, a, b, c, d)) == PartSum(part, o.col(a).r0, o.col(b).r1, o.col(c).r2, o.col(d).r3)
  {
    EntryReads(o, tab, part, a, 0);
    EntryReads(o, tab, part, b, 1);
    EntryReads(o, tab, part, c, 2);
    EntryReads(o, tab, part, d, 3);
  }

  /** The sums that the four tables give. */
  lemma {:induction false} MixSum(mix: Col -> Col, a: Byte, b: Byte, c: Byte, d: Byte)
    requires forall s {:trigger MixCol(s)} :: mix(s) == MixCol(s)
    ensures PartSum(MixEntry, a, b, c, d) == mix(Col(Sub(a), Sub(b), Sub(c), Sub(d)))
    ensures PartSum(LastEntry, a, b, c, d) == Col(Sub(a), Sub(b), Sub(c), Sub(d))
  {
    IndexIs(a);
    IndexIs(b);
    IndexIs(c);
    IndexIs(d);
    MixParts(Col(Sub(a), Sub(b), Sub(c), Sub(d)));
    LastParts(Col(Sub(a), Sub(b), Sub(c), Sub(d)));
  }

  lemma {:induction false} UnmixSum(a: Byte, b: Byte, c: Byte, d: Byte)
    ensures PartSum(UnmixEntry, a, b, c, d) == UnmixCol(Col(InvSub(a), InvSub(b), InvSub(c), InvSub(d)))
    ensures PartSum(InvLastEntry, a, b, c, d) == Col(InvSub(a), InvSub(b), InvSub(c), InvSub(d))
  {
    IndexIs(a);
    IndexIs(b);
    IndexIs(c);
    IndexIs(d);
    UnmixParts(Col(InvSub(a), InvSub(b), InvSub(c), InvSub(d)));
    LastParts(Col(InvSub(a), InvSub(b), InvSub(c), InvSub(d)));
  }

  // ---------------------------------------------------------------- whole rounds

  /** Four words: b0 or b1 of aes_encrypt. */
  datatype Quad<W> = Quad(w0: W, w1: W, w2: W, w3: W)

  function BlockFrom<W>(o: Ops<W>, x: Quad<W>): Block { Block(o.col(x.w0), o.col(x.w1), o.col(x.w2), o.col(x.w3)) }

  function AddWords<W>(o: Ops<W>, x: Quad<W>, k: Quad<W>): Quad<W> {
    Quad(o.xor(x.w0, k.w0), o.xor(x.w1, k.w1), o.xor(x.w2, k.w2), o.xor(x.w3, k.w3))
  }

  /** f_nround and f_lround */
  function RoundOn<W>(o: Ops<W>, tab: Table<W>, x: Quad<W>, k: Quad<W>): Quad<W>
    requires Shaped(tab)
  {
    AddWords(o, Quad(SumOf(o, tab, x.w0, x.w1, x.w2, x.w3), SumOf(o, tab, x.w1, x.w2, x.w3, x.w0),
                     SumOf(o, tab, x.w2, x.w3, x.w0, x.w1), SumOf(o, tab, x.w3, x.w0, x.w1, x.w2)), k)
  }

  /** i_nround and i_lround */
  function RoundBack<W>(o: Ops<W>, tab: Table<W>, x: Quad<W>, k: Quad<W>): Quad<W>
    requires Shaped(tab)
  {
    AddWords(o, Quad(SumOf(o, tab, x.w0, x.w3, x.w2, x.w1), SumOf(o, tab, x.w1, x.w0, x.w3, x.w2),
                     SumOf(o, tab, x.w2, x.w1, x.w0, x.w3), SumOf(o, tab, x.w3, x.w2, x.w1, x.w0)), k)
  }

  /** The sum of entries for each kind of table, on columns. */
  lemma {:induction false} MixedIs<W(!new)>(o: Ops<W>, ft: Table<W>, a: W, b: W, c: W, d: W)
    requires Laws(o) && Reads(o, ft, MixEntry)
    ensures o.col(SumOf(o, ft, a, b, c, d)) == MixCol(Col(Sub(o.col(a).r0), Sub(o.col(b).r1), Sub(o.col(c).r2),
                                                          Sub(o.col(d).r3)))
  {
    SumReads(o, ft, MixEntry, a, b, c, d);
    MixSum(MixCol, o.col(a).r0, o.col(b).r1, o.col(c).r2, o.col(d).r3);
  }

  lemma {:induction false} LastIs<W(!new)>(o: Ops<W>, fl: Table<W>, a: W, b: W, c: W, d: W)
    requires Laws(o) && Reads(o, fl, LastEntry)
    ensures o.col(SumOf(o, fl, a, b, c, d)) == Col(Sub(o.col(a).r0), Sub(o.col(b).r1), Sub(o.col(c).r2),
                                                   Sub(o.col(d).r3))
  {
    SumReads(o, fl, LastEntry, a, b, c, d);
    MixSum(MixCol, o.col(a).r0, o.col(b).r1, o.col(c).r2, o.col(d).r3);
  }

  lemma {:induction false} UnmixedIs<W(!new)>(o: Ops<W>, it: Table<W>, a: W, b: W, c: W, d: W)
    requires Laws(o) && Reads(o, it, UnmixEntry)
    ensures o.col(SumOf(o, it, a, b, c, d)) ==
            UnmixCol(Col(InvSub(o.col(a).r0), InvSub(o.col(b).r1), InvSub(o.col(c).r2), InvSub(o.col(d).r3)))
  {
    SumReads(o, it, UnmixEntry, a, b, c, d);
    UnmixSum(o.col(a).r0, o.col(b).r1, o.col(c).r2, o.col(d).r3);
  }

  lemma {:induction false} InvLastIs<W(!new)>(o: Ops<W>, il: Table<W>, a: W, b: W, c: W, d: W)
    requires Laws(o) && Reads(o, il, InvLastEntry)
    ensures o.col(SumOf(o, il, a, b, c, d)) == Col(InvSub(o.col(a).r0), InvSub(o.col(b).r1), InvSub(o.col(c).r2),
                                                   InvSub(o.col(d).r3))
  {
    SumReads(o, il, InvLastEntry, a, b, c, d);
    UnmixSum(o.col(a).r0, o.col(b).r1, o.col(c).r2, o.col(d).r3);
  }

  /** f_nround is a round of the cipher. */
  lemma {:induction false} FullRoundIs<W(!new)>(o: Ops<W>, ft: Table<W>, x: Quad<W>, k: Quad<W>)
    requires Laws(o) && Reads(o, ft, MixEntry)
    ensures BlockFrom(o, RoundOn(o, ft, x, k)) == FullRound(BlockFrom(o, x), BlockFrom(o, k))
  {
    MixedIs(o, ft, x.w0, x.w1, x.w2, x.w3);
    MixedIs(o, ft, x.w1, x.w2, x.w3, x.w0);
    MixedIs(o, ft, x.w2, x.w3, x.w0, x.w1);
    MixedIs(o, ft, x.w3, x.w0, x.w1, x.w2);
  }

  /** f_lround is its last round. */
  lemma {:induction false} LastRoundIs<W(!new)>(o: Ops<W>, fl: Table<W>, x: Quad<W>, k: Quad<W>)
    requires Laws(o) && Reads(o, fl, LastEntry)
    ensures BlockFrom(o, RoundOn(o, fl, x, k)) == LastRound(BlockFrom(o, x), BlockFrom(o, k))
  {
    LastIs(o, fl, x.w0, x.w1, x.w2, x.w3);
    LastIs(o, fl, x.w1, x.w2, x.w3, x.w0);
    LastIs(o, fl, x.w2, x.w3, x.w0, x.w1);
    LastIs(o, fl, x.w3, x.w0, x.w1, x.w2);
  }

  /** i_nround is a round of the equivalent inverse cipher. */
  lemma {:induction false} InvFullRoundIs<W(!new)>(o: Ops<W>, it: Table<W>, x: Quad<W>, k: Quad<W>)
    requires Laws(o) && Reads(o, it, UnmixEntry)
    ensures BlockFrom(o, RoundBack(o, it, x, k)) == InvFullRound(BlockFrom(o, x), BlockFrom(o, k))
  {
    UnmixedIs(o, it, x.w0, x.w3, x.w2, x.w1);
    UnmixedIs(o, it, x.w1, x.w0, x.w3, x.w2);
    UnmixedIs(o, it, x.w2, x.w1, x.w0, x.w3);
    UnmixedIs(o, it, x.w3, x.w2, x.w1, x.w0);
  }

  /** i_lround is its last round. */
  lemma {:induction false} InvLastRoundIs<W(!new)>(o: Ops<W>, il: Table<W>, x: Quad<W>, k: Quad<W>)
    requires Laws(o) && Reads(o, il, InvLastEntry)
    ensures BlockFrom(o, RoundBack(o, il, x, k)) == InvLastRound(BlockFrom(o, x), BlockFrom(o, k))
  {
    InvLastIs(o, il, x.w0, x.w3, x.w2, x.w1);
    InvLastIs(o, il, x.w1, x.w0, x.w3, x.w2);
    InvLastIs(o, il, x.w2, x.w1, x.w0, x.w3);
    InvLastIs(o, il, x.w3, x.w2, x.w1, x.w0);
  }

  // ---------------------------------------------------------------- encryption and decryption

  ghost function BlocksFrom<W>(o: Ops<W>, ks: seq<Quad<W>>): (bs: seq<Block>)
    ensures |bs| == |ks| && forall i :: 0 <= i < |ks| ==> bs[i] == BlockFrom(o, ks[i])
  {
    seq(|ks|, i requires 0 <= i < |ks| => BlockFrom(o, ks[i]))
  }

  /** The rounds 1 to i on words. */
  function RoundsUp<W>(g: (Quad<W>, Quad<W>) -> Quad<W>, ks: seq<Quad<W>>, i: nat, x: Quad<W>): Quad<W>
    requires i < |ks|
  {
    if i == 0 then x else g(RoundsUp(g, ks, i - 1, x), ks[i])
  }

  /** The rounds |ks| - 2 down to i. */
  function RoundsDown<W>(g: (Quad<W>, Quad<W>) -> Quad<W>, ks: seq<Quad<W>>, i: nat, x: Quad<W>): Quad<W>
    requires i < |ks|
    decreases |ks| - i
  {
    if i == |ks| - 1 then x else g(RoundsDown(g, ks, i + 1, x), ks[i])
  }

  function UpTo<W>(o: Ops<W>, g: (Quad<W>, Quad<W>) -> Quad<W>, last: (Quad<W>, Quad<W>) -> Quad<W>,
                   ks: seq<Quad<W>>, x: Quad<W>): Quad<W>
    requires |ks| > 1
  {
    last(RoundsUp(g, ks, |ks| - 2, AddWords(o, x, ks[0])), ks[|ks| - 1])
  }

  function DownTo<W>(o: Ops<W>, g: (Quad<W>, Quad<W>) -> Quad<W>, last: (Quad<W>, Quad<W>) -> Quad<W>,
                     ks: seq<Quad<W>>, x: Quad<W>): Quad<W>
    requires |ks| > 1
  {
    last(RoundsDown(g, ks, 1, AddWords(o, x, ks[|ks| - 1])), ks[0])
  }

  /** aes_encrypt on words. */
  function EncryptWords<W>(o: Ops<W>, ft: Table<W>, fl: Table<W>, ks: seq<Quad<W>>, x: Quad<W>): Quad<W>
    requires Shaped(ft) && Shaped(fl) && |ks| > 1
  {
    UpTo(o, (y, k) => RoundOn(o, ft, y, k), (y, k) => RoundOn(o, fl, y, k), ks, x)
  }

  /** aes_decrypt on words. */
  function DecryptWords<W>(o: Ops<W>, it: Table<W>, il: Table<W>, ds: seq<Quad<W>>, x: Quad<W>): Quad<W>
    requires Shaped(it) && Shaped(il) && |ds| > 1
  {
    DownTo(o, (y, k) => RoundBack(o, it, y, k), (y, k) => RoundBack(o, il, y, k), ds, x)
  }

  /** The rounds g on words are the rounds f on blocks. */
  ghost predicate Follows<W(!new)>(o: Ops<W>, g: (Quad<W>, Quad<W>) -> Quad<W>, f: (Block, Block) -> Block) {
    forall x, k {:trigger g(x, k)} :: BlockFrom(o, g(x, k)) == f(BlockFrom(o, x), BlockFrom(o, k))
  }

  lemma {:induction false} RoundsUpFollow<W(!new)>(o: Ops<W>, g: (Quad<W>, Quad<W>) -> Quad<W>,
                                                   f: (Block, Block) -> Block,
                                                  ks: seq<Quad<W>>, i: nat, x: Quad<W>)
    requires i < |ks| && Follows(o, g, f)
    ensures BlockFrom(o, RoundsUp(g, ks, i, x)) == Iterate(f, BlocksFrom(o, ks), i, BlockFrom(o, x))
  {
    if i > 0 { RoundsUpFollow(o, g, f, ks, i - 1, x); }
  }

  lemma {:induction false} RoundsDownFollow<W(!new)>(o: Ops<W>, g: (Quad<W>, Quad<W>) -> Quad<W>,
                                                     f: (Block, Block) -> Block,
                                                    ks: seq<Quad<W>>, i: nat, x: Quad<W>)
    requires i < |ks| && Follows(o, g, f)
    ensures BlockFrom(o, RoundsDown(g, ks, i, x)) == IterateDown(f, BlocksFrom(o, ks), i, BlockFrom(o, x))
    decreases |ks| - i
  {
    if i < |ks| - 1 { RoundsDownFollow(o, g, f, ks, i + 1, x); }
  }

  lemma {:induction false} AddWordsIs<W(!new)>(o: Ops<W>, x: Quad<W>, k: Quad<W>)
    requires XorLaw(o)
    ensures BlockFrom(o, AddWords(o, x, k)) == AddKey(BlockFrom(o, x), BlockFrom(o, k))
  {
  }

  lemma {:induction false} UpToFollows<W(!new)>(o: Ops<W>, g: (Quad<W>, Quad<W>) -> Quad<W>,
                                                last: (Quad<W>, Quad<W>) -> Quad<W>,
                                               f: (Block, Block) -> Block, h: (Block, Block) -> Block,
                                               ks: seq<Quad<W>>, x: Quad<W>, start: Block)
    requires |ks| > 1 && BlockFrom(o, AddWords(o, x, ks[0])) == start && Follows(o, g, f) && Follows(o, last, h)
    ensures BlockFrom(o, UpTo(o, g, last, ks, x)) ==
            h(Iterate(f, BlocksFrom(o, ks), |ks| - 2, start), BlockFrom(o, ks[|ks| - 1]))
  {
    RoundsUpFollow(o, g, f, ks, |ks| - 2, AddWords(o, x, ks[0]));
  }

  lemma {:induction false} DownToFollows<W(!new)>(o: Ops<W>, g: (Quad<W>, Quad<W>) -> Quad<W>,
                                                  last: (Quad<W>, Quad<W>) -> Quad<W>,
                                                 f: (Block, Block) -> Block, h: (Block, Block) -> Block,
                                                 ks: seq<Quad<W>>, x: Quad<W>, start: Block)
    requires |ks| > 1 && BlockFrom(o, AddWords(o, x, ks[|ks| - 1])) == start && Follows(o, g, f) && Follows(o, last, h)
    ensures BlockFrom(o, DownTo(o, g, last, ks, x)) == h(IterateDown(f, BlocksFrom(o, ks), 1, start),
                                                         BlockFrom(o, ks[0]))
  {
    RoundsDownFollow(o, g, f, ks, 1, AddWords(o, x, ks[|ks| - 1]));
  }

  lemma {:induction false} FollowsRounds<W(!new)>(o: Ops<W>, ft: Table<W>, fl: Table<W>)
    requires Laws(o) && Reads(o, ft, MixEntry) && Reads(o, fl, LastEntry)
    ensures Follows(o, (y, k) => RoundOn(o, ft, y, k), FullRound)
    ensures Follows(o, (y, k) => RoundOn(o, fl, y, k), LastRound)
  {
    forall x, k ensures BlockFrom(o, RoundOn(o, ft, x, k)) == FullRound(BlockFrom(o, x), BlockFrom(o, k)) {
      FullRoundIs(o, ft, x, k);
    }
    forall x, k ensures BlockFrom(o, RoundOn(o, fl, x, k)) == LastRound(BlockFrom(o, x), BlockFrom(o, k)) {
      LastRoundIs(o, fl, x, k);
    }
  }

  lemma {:induction false} FollowsInverse<W(!new)>(o: Ops<W>, it: Table<W>, il: Table<W>)
    requires Laws(o) && Reads(o, it, UnmixEntry) && Reads(o, il, InvLastEntry)
    ensures Follows(o, (y, k) => RoundBack(o, it, y, k), InvFullRound)
    ensures Follows(o, (y, k) => RoundBack(o, il, y, k), InvLastRound)
  {
    forall x, k ensures BlockFrom(o, RoundBack(o, it, x, k)) == InvFullRound(BlockFrom(o, x), BlockFrom(o, k)) {
      InvFullRoundIs(o, it, x, k);
    }
    forall x, k ensures BlockFrom(o, RoundBack(o, il, x, k)) == InvLastRound(BlockFrom(o, x), BlockFrom(o, k)) {
      InvLastRoundIs(o, il, x, k);
    }
  }

  /** aes_encrypt on words computes Cipher. */
  lemma {:induction false} EncryptWordsIs<W(!new)>(o: Ops<W>, ft: Table<W>, fl: Table<W>, ks: seq<Quad<W>>, x: Quad<W>)
    requires Laws(o) && Reads(o, ft, MixEntry) && Reads(o, fl, LastEntry) && |ks| > 1
    ensures BlockFrom(o, EncryptWords(o, ft, fl, ks, x)) == Cipher(BlocksFrom(o, ks), BlockFrom(o, x))
  {
    FollowsRounds(o, ft, fl);
    AddWordsIs(o, x, ks[0]);
    UpToFollows(o, (y, k) => RoundOn(o, ft, y, k), (y, k) => RoundOn(o, fl, y, k), FullRound, LastRound, ks, x,
                AddKey(BlockFrom(o, x), BlockFrom(o, ks[0])));
    Aes.CipherIs(BlocksFrom(o, ks), BlockFrom(o, x));
  }

  /** aes_decrypt on words computes the equivalent inverse cipher. */
  lemma {:induction false} DecryptWordsIs<W(!new)>(o: Ops<W>, it: Table<W>, il: Table<W>, ds: seq<Quad<W>>, x: Quad<W>)
    requires Laws(o) && Reads(o, it, UnmixEntry) && Reads(o, il, InvLastEntry) && |ds| > 1
    ensures BlockFrom(o, DecryptWords(o, it, il, ds, x)) == EqInvCipher(BlocksFrom(o, ds), BlockFrom(o, x))
  {
    FollowsInverse(o, it, il);
    AddWordsIs(o, x, ds[|ds| - 1]);
    DownToFollows(o, (y, k) => RoundBack(o, it, y, k), (y, k) => RoundBack(o, il, y, k), InvFullRound, InvLastRound,
        ds, x,
                  AddKey(BlockFrom(o, x), BlockFrom(o, ds[|ds| - 1])));
    Aes.EqInvCipherRuns(BlocksFrom(o, ds), BlockFrom(o, x));
  }

  // ---------------------------------------------------------------- keys

  function ImixQuad<W>(o: Ops<W>, k: Quad<W>): Quad<W> {
    Quad(ImixWord(o, k.w0), ImixWord(o, k.w1), ImixWord(o, k.w2), ImixWord(o, k.w3))
  }

  lemma {:induction false} ImixQuadIs<W(!new)>(o: Ops<W>, k: Quad<W>)
    requires Laws(o)
    ensures BlockFrom(o, ImixQuad(o, k)) == InvMixColumns(BlockFrom(o, k))
  {
    ImixWordIs(o, k.w0);
    ImixWordIs(o, k.w1);
    ImixWordIs(o, k.w2);
    ImixWordIs(o, k.w3);
  }

  /** All but the first and the last, changed by u. */
  ghost function Middled<T>(ks: seq<T>, u: T -> T): (ds: seq<T>)
    ensures |ds| == |ks|
    ensures forall i :: 0 <= i < |ks| ==> ds[i] == if i == 0 || i == |ks| - 1 then ks[i] else u(ks[i])
  {
    seq(|ks|, i requires 0 <= i < |ks| => if i == 0 || i == |ks| - 1 then ks[i] else u(ks[i]))
  }

  /** The decryption keys: imix_col of the round keys, but for the first, and the last as aes_decrypt takes it. */
  ghost function DecryptionWords<W>(o: Ops<W>, ks: seq<Quad<W>>): (ds: seq<Quad<W>>)
    ensures |ds| == |ks|
  {
    Middled(ks, (k: Quad<W>) => ImixQuad(o, k))
  }

  lemma {:induction false} MiddledFollows<W(!new)>(o: Ops<W>, ks: seq<Quad<W>>, u: Quad<W> -> Quad<W>,
                                                   f: Block -> Block)
    requires forall k {:trigger u(k)} :: BlockFrom(o, u(k)) == f(BlockFrom(o, k))
    ensures BlocksFrom(o, Middled(ks, u)) == Middled(BlocksFrom(o, ks), f)
  {
  }

  lemma {:induction false} MiddledDecrypts(rk: seq<Block>)
    requires |rk| > 1
    ensures DecryptionKeys(rk, Middled(rk, InvMixColumns))
  {
  }

  lemma {:induction false} DecryptionWordsAre<W(!new)>(o: Ops<W>, ks: seq<Quad<W>>)
    requires Laws(o) && |ks| > 1
    ensures DecryptionKeys(BlocksFrom(o, ks), BlocksFrom(o, DecryptionWords(o, ks)))
  {
    forall k ensures BlockFrom(o, ImixQuad(o, k)) == InvMixColumns(BlockFrom(o, k)) {
      ImixQuadIs(o, k);
    }
    MiddledFollows(o, ks, (k: Quad<W>) => ImixQuad(o, k), InvMixColumns);
    MiddledDecrypts(BlocksFrom(o, ks));
  }

  /** rco_tab */
  ghost function RconWord<W>(o: Ops<W>, i: nat): W { o.word(Val(Aes.Rcon(i)), 0, 0, 0) }

  lemma {:induction false} RconWordIs<W(!new)>(o: Ops<W>, i: nat)
    requires Laws(o)
    ensures o.col(RconWord(o, i)) == LastPart(Aes.Rcon(i))
  {
    ByteVal(Aes.Rcon(i));
    ByteZero();
  }

  /** The bytes of a key as the cipher's bytes. */
  function KeyBytes(key: seq<bv8>): (s: seq<Byte>)
    ensures |s| == |key| && forall i :: 0 <= i < |key| ==> s[i] == ByteOf(key[i])
  {
    seq(|key|, i requires 0 <= i < |key| => ByteOf(key[i]))
  }

  ghost predicate GoodLength(key: seq<bv8>) { |key| == 16 || |key| == 24 || |key| == 32 }

  /** ls_box */
  ghost function LsBoxWord<W>(o: Ops<W>, fl: Table<W>): W -> W
    requires Shaped(fl)
  {
    x => SumOf(o, fl, x, x, x, x)
  }

  /** ls on words substitutes each byte. */
  ghost predicate Substitutes<W(!new)>(o: Ops<W>, ls: W -> W, sub: Col -> Col) {
    forall x :: o.col(ls(x)) == sub(o.col(x))
  }

  lemma {:induction false} LsBoxIs<W(!new)>(o: Ops<W>, fl: Table<W>)
    requires Laws(o) && Reads(o, fl, LastEntry)
    ensures Substitutes(o, LsBoxWord(o, fl), SubCol)
  {
    forall x: W ensures o.col(SumOf(o, fl, x, x, x, x)) == SubCol(o.col(x)) {
      LastIs(o, fl, x, x, x, x);
    }
  }

  /** What loop4, loop6 and loop8 add to the word nk places back. */
  ghost function TempWord<W>(o: Ops<W>, ls: W -> W, t: W, nk: nat, i: nat): W
    requires 0 < nk <= i
  {
    if i % nk == 0 then o.xor(ls(o.ror(t, 8)), RconWord(o, i / nk - 1))
    else if nk > 6 && i % nk == 4 then ls(t)
    else t
  }

  /** Term i of a schedule: the first nk are given, each later one adds to the one nk places back what the last one
      gives. */
  ghost function Grown<T>(add: (T, T) -> T, temp: (T, nat) -> T, first: nat -> T, nk: nat, i: nat): T
    requires nk > 0
  {
    if i < nk then first(i) else add(Grown(add, temp, first, nk, i - nk), temp(Grown(add, temp, first, nk, i - 1), i))
  }

  ghost function Temps<W>(o: Ops<W>, ls: W -> W, nk: nat): (W, nat) -> W
    requires nk > 0
  {
    (t: W, j: nat) => if j >= nk then TempWord(o, ls, t, nk, j) else t
  }

  /** Word i of E_KEY, the first nk being those of the key. */
  ghost function ScheduleWord<W>(o: Ops<W>, ls: W -> W, first: nat -> W, nk: nat, i: nat): W
    requires nk > 0
  {
    Grown(o.xor, Temps(o, ls, nk), first, nk, i)
  }

  /** Term i is as a schedule makes it from the ones before. */
  ghost predicate Term<T>(add: (T, T) -> T, temp: (T, nat) -> T, first: nat -> T, nk: nat, terms: nat -> T, i: nat)
    requires nk > 0
  {
    terms(i) == if i < nk then first(i) else add(terms(i - nk), temp(terms(i - 1), i))
  }

  lemma {:induction false} GrownIs<T(!new)>(add: (T, T) -> T, temp: (T, nat) -> T, first: nat -> T, nk: nat,
                                            terms: nat -> T, i: nat)
    requires nk > 0 && forall j: nat {:trigger Term(add, temp, first, nk, terms, j)} ::
             Term(add, temp, first, nk, terms, j)
    ensures Grown(add, temp, first, nk, i) == terms(i)
  {
    assert Term(add, temp, first, nk, terms, i);
    if i >= nk {
      GrownIs(add, temp, first, nk, terms, i - nk);
      GrownIs(add, temp, first, nk, terms, i - 1);
    }
  }

  lemma {:induction false} GrownFollows<W(!new), C(!new)>(col: W -> C, add: (W, W) -> W, temp: (W, nat) -> W,
                                                          first: nat -> W,
                                                         add': (C, C) -> C, temp': (C, nat) -> C, first': nat -> C,
                                                             nk: nat, i: nat)
    requires nk > 0 && forall x, y :: col(add(x, y)) == add'(col(x), col(y))
    requires forall x, j: nat :: col(temp(x, j)) == temp'(col(x), j)
    requires forall j: nat :: j < nk ==> col(first(j)) == first'(j)
    ensures col(Grown(add, temp, first, nk, i)) == Grown(add', temp', first', nk, i)
  {
    if i >= nk {
      GrownFollows(col, add, temp, first, add', temp', first', nk, i - nk);
      GrownFollows(col, add, temp, first, add', temp', first', nk, i - 1);
    }
  }

  /** A word of the key itself. */
  function KeyWordOf<W>(o: Ops<W>, key: seq<bv8>, i: nat): W
    requires 4 * i + 4 <= |key|
  {
    o.word(key[4 * i], key[4 * i + 1], key[4 * i + 2], key[4 * i + 3])
  }

  /** The same schedule on columns, for any substitution. */
  ghost function TempCol(sub: Col -> Col, rcon: nat -> Col, t: Col, nk: nat, i: nat): Col
    requires 0 < nk <= i
  {
    if i % nk == 0 then XorCol(sub(RotUp(t)), rcon(i / nk - 1))
    else if nk > 6 && i % nk == 4 then sub(t)
    else t
  }

  ghost function TempCols(sub: Col -> Col, rcon: nat -> Col, nk: nat): (Col, nat) -> Col
    requires nk > 0
  {
    (t: Col, j: nat) => if j >= nk then TempCol(sub, rcon, t, nk, j) else t
  }

  ghost function ScheduleCol(sub: Col -> Col, rcon: nat -> Col, first: nat -> Col, nk: nat, i: nat): Col
    requires nk > 0
  {
    Grown(XorCol, TempCols(sub, rcon, nk), first, nk, i)
  }

  lemma {:induction false} FirstTemp<W(!new)>(o: Ops<W>, ls: W -> W, sub: Col -> Col, t: W, r: W, rc: Col)
    requires RorLaw(o) && XorLaw(o) && Substitutes(o, ls, sub) && o.col(r) == rc
    ensures o.col(o.xor(ls(o.ror(t, 8)), r)) == XorCol(sub(RotUp(o.col(t))), rc)
  {
  }

  lemma {:induction false} TempFollows<W(!new)>(o: Ops<W>, ls: W -> W, sub: Col -> Col, rcon: nat -> Col, t: W,
                                                nk: nat, i: nat)
    requires RorLaw(o) && XorLaw(o) && Substitutes(o, ls, sub) && 0 < nk <= i
    requires forall j: nat {:trigger rcon(j)} :: o.col(RconWord(o, j)) == rcon(j)
    ensures o.col(TempWord(o, ls, t, nk, i)) == TempCol(sub, rcon, o.col(t), nk, i)
  {
    if i % nk == 0 {
      var j := i / nk - 1;
      FirstTemp(o, ls, sub, t, RconWord(o, j), rcon(j));
    }
  }

  lemma {:induction false} TempsFollow<W(!new)>(o: Ops<W>, ls: W -> W, sub: Col -> Col, rcon: nat -> Col, nk: nat,
                                                t: W, j: nat)
    requires RorLaw(o) && XorLaw(o) && Substitutes(o, ls, sub) && nk > 0
    requires forall j: nat {:trigger rcon(j)} :: o.col(RconWord(o, j)) == rcon(j)
    ensures o.col(Temps(o, ls, nk)(t, j)) == TempCols(sub, rcon, nk)(o.col(t), j)
  {
    if j >= nk { TempFollows(o, ls, sub, rcon, t, nk, j); }
  }

  lemma {:induction false} ScheduleFollows<W(!new)>(o: Ops<W>, temp: (W, nat) -> W, temp': (Col, nat) -> Col,
                                                    add: (Col, Col) -> Col,
                                                   words: nat -> W, first: nat -> Col, nk: nat, i: nat)
    requires nk > 0 && forall x, y {:trigger o.xor(x, y)} :: o.col(o.xor(x, y)) == add(o.col(x), o.col(y))
    requires forall t, j: nat {:trigger temp(t, j)} :: o.col(temp(t, j)) == temp'(o.col(t), j)
    requires forall j: nat {:trigger first(j)} {:trigger words(j)} :: j < nk ==> o.col(words(j)) == first(j)
    ensures o.col(Grown(o.xor, temp, words, nk, i)) == Grown(add, temp', first, nk, i)
  {
    GrownFollows(o.col, o.xor, temp, words, add, temp', first, nk, i);
  }

  ghost function RconCol(i: nat): Col { LastPart(Aes.Rcon(i)) }

  lemma {:induction false} KeyWordStep(bytes: seq<Byte>, nk: nat, i: nat)
    requires Aes.GoodKey(bytes) && nk == |bytes| / 4 <= i
    ensures Aes.KeyWord(bytes, i) == XorCol(Aes.KeyWord(bytes, i - nk), Aes.Temp(Aes.KeyWord(bytes, i - 1), nk, i))
  {
  }

  lemma {:induction false} TempColIs(t: Col, nk: nat, i: nat)
    requires 0 < nk <= i
    ensures TempCol(SubCol, RconCol, t, nk, i) == Aes.Temp(t, nk, i)
  {
  }

  /** On columns it is the key expansion of FIPS 197. */
  lemma {:induction false} ScheduleColIs(bytes: seq<Byte>, first: nat -> Col, nk: nat, i: nat)
    requires Aes.GoodKey(bytes) && nk == |bytes| / 4
    requires forall j: nat {:trigger first(j)} :: 4 * j + 4 <= |bytes| ==> Aes.KeyCol(bytes, j) == first(j)
    ensures ScheduleCol(SubCol, RconCol, first, nk, i) == Aes.KeyWord(bytes, i)
  {
    var terms := (j: nat) => Aes.KeyWord(bytes, j);
    var temp := TempCols(SubCol, RconCol, nk);
    forall j: nat ensures Term(XorCol, temp, first, nk, terms, j) {
      if j >= nk {
        KeyWordStep(bytes, nk, j);
        TempColIs(Aes.KeyWord(bytes, j - 1), nk, j);
      } else {
        assert Aes.KeyCol(bytes, j) == first(j);
      }
    }
    GrownIs(XorCol, temp, first, nk, terms, i);
  }

  ghost function FirstCol(bytes: seq<Byte>): nat -> Col {
    (i: nat) => if 4 * i + 4 <= |bytes| then Aes.KeyCol(bytes, i) else LastPart(ZERO)
  }

  ghost function FirstWord<W>(o: Ops<W>, key: seq<bv8>): nat -> W
    requires |key| >= 4
  {
    (i: nat) => if 4 * i + 4 <= |key| then KeyWordOf(o, key, i) else KeyWordOf(o, key, 0)
  }

  lemma {:induction false} KeyWordReads<W(!new)>(o: Ops<W>, key: seq<bv8>, i: nat)
    requires WordLaw(o) && 4 * i + 4 <= |key|
    ensures o.col(KeyWordOf(o, key, i)) == Aes.KeyCol(KeyBytes(key), i)
  {
  }

  lemma {:induction false} ScheduleReads<W(!new)>(o: Ops<W>, fl: Table<W>, key: seq<bv8>, nk: nat, i: nat)
    requires Laws(o) && Reads(o, fl, LastEntry) && GoodLength(key) && nk == |key| / 4
    ensures o.col(ScheduleWord(o, LsBoxWord(o, fl), FirstWord(o, key), nk, i)) ==
            ScheduleCol(SubCol, RconCol, FirstCol(KeyBytes(key)), nk, i)
  {
    var words, first := FirstWord(o, key), FirstCol(KeyBytes(key));
    var ls := LsBoxWord(o, fl);
    var temp, temp' := Temps(o, ls, nk), TempCols(SubCol, RconCol, nk);
    assert forall t, j: nat :: o.col(temp(t, j)) == temp'(o.col(t), j) by {
      LsBoxIs(o, fl);
      forall j: nat ensures o.col(RconWord(o, j)) == RconCol(j) {
        RconWordIs(o, j);
      }
      forall t, j: nat ensures o.col(temp(t, j)) == temp'(o.col(t), j) {
        TempsFollow(o, ls, SubCol, RconCol, nk, t, j);
      }
    }
    forall j: nat | j < nk ensures o.col(words(j)) == first(j) {
      KeyWordReads(o, key, j);
    }
    ScheduleFollows(o, temp, temp', XorCol, words, first, nk, i);
  }

  /** The key schedule on words is the key expansion of FIPS 197. */
  lemma {:induction false} ScheduleWordIs<W(!new)>(o: Ops<W>, fl: Table<W>, key: seq<bv8>, nk: nat, i: nat)
    requires Laws(o) && Reads(o, fl, LastEntry) && GoodLength(key) && nk == |key| / 4
    ensures o.col(ScheduleWord(o, LsBoxWord(o, fl), FirstWord(o, key), nk, i)) == Aes.KeyWord(KeyBytes(key), i)
  {
    ScheduleReads(o, fl, key, nk, i);
    ScheduleColIs(KeyBytes(key), FirstCol(KeyBytes(key)), nk, i);
  }

  ghost function ScheduleQuad<W>(o: Ops<W>, fl: Table<W>, key: seq<bv8>, i: nat): Quad<W>
    requires Shaped(fl) && GoodLength(key)
  {
    var ls, first, nk := LsBoxWord(o, fl), FirstWord(o, key), |key| / 4;
    Quad(ScheduleWord(o, ls, first, nk, 4 * i), ScheduleWord(o, ls, first, nk, 4 * i + 1),
         ScheduleWord(o, ls, first, nk, 4 * i + 2), ScheduleWord(o, ls, first, nk, 4 * i + 3))
  }

  /** The round keys of a key, as words. */
  ghost function ScheduleQuads<W>(o: Ops<W>, fl: Table<W>, key: seq<bv8>): (ks: seq<Quad<W>>)
    requires Shaped(fl) && GoodLength(key)
    ensures |ks| == Aes.Rounds(|key|) + 1 && forall i :: 0 <= i < |ks| ==> ks[i] == ScheduleQuad(o, fl, key, i)
  {
    seq(Aes.Rounds(|key|) + 1, i requires 0 <= i => ScheduleQuad(o, fl, key, i))
  }

  lemma {:induction false} ScheduleQuadIs<W(!new)>(o: Ops<W>, fl: Table<W>, key: seq<bv8>, i: nat)
    requires Laws(o) && Reads(o, fl, LastEntry) && GoodLength(key)
    ensures BlockFrom(o, ScheduleQuad(o, fl, key, i)) == Aes.KeyBlock(KeyBytes(key), i)
  {
    ScheduleWordIs(o, fl, key, |key| / 4, 4 * i);
    ScheduleWordIs(o, fl, key, |key| / 4, 4 * i + 1);
    ScheduleWordIs(o, fl, key, |key| / 4, 4 * i + 2);
    ScheduleWordIs(o, fl, key, |key| / 4, 4 * i + 3);
  }

  lemma {:induction false} ScheduleQuadsAre<W(!new)>(o: Ops<W>, fl: Table<W>, key: seq<bv8>)
    requires Laws(o) && Reads(o, fl, LastEntry) && GoodLength(key)
    ensures BlocksFrom(o, ScheduleQuads(o, fl, key)) == Aes.RoundKeys(KeyBytes(key))
  {
    forall i | 0 <= i < Aes.Rounds(|key|) + 1
      ensures BlocksFrom(o, ScheduleQuads(o, fl, key))[i] == Aes.RoundKeys(KeyBytes(key))[i]
    {
      ScheduleQuadIs(o, fl, key, i);
    }
  }

  // ---------------------------------------------------------------- the round trip, word for word

  lemma {:induction false} BlockInjective<W(!new)>(o: Ops<W>, x: Quad<W>, y: Quad<W>)
    requires Laws(o) && BlockFrom(o, x) == BlockFrom(o, y)
    ensures x == y
  {
    assert o.col(x.w0) == o.col(y.w0) && o.col(x.w1) == o.col(y.w1);
    assert o.col(x.w2) == o.col(y.w2) && o.col(x.w3) == o.col(y.w3);
  }

  lemma {:induction false} WordsRoundTrip<W(!new)>(o: Ops<W>, ft: Table<W>, fl: Table<W>, it: Table<W>, il: Table<W>,
                                                  ks: seq<Quad<W>>, x: Quad<W>)
    requires Laws(o) && TablesRead(o, ft, fl, it, il) && |ks| > 1
    ensures DecryptWords(o, it, il, DecryptionWords(o, ks), EncryptWords(o, ft, fl, ks, x)) == x
  {
    var ds, y := DecryptionWords(o, ks), EncryptWords(o, ft, fl, ks, x);
    EncryptWordsIs(o, ft, fl, ks, x);
    DecryptWordsIs(o, it, il, ds, y);
    DecryptionWordsAre(o, ks);
    EqInvCipherIs(BlocksFrom(o, ks), BlocksFrom(o, ds), BlockFrom(o, y));
    InvCipherUndoes(BlocksFrom(o, ks), BlockFrom(o, x));
    BlockInjective(o, DecryptWords(o, it, il, ds, y), x);
  }

  /** For every key of 16, 24 or 32 bytes and every block, the words aes_decrypt computes from those of aes_encrypt are
      the words of the block; and what aes_encrypt computes is Cipher of FIPS 197 with the expanded key. */
  lemma {:induction false} RoundTrip<W(!new)>(o: Ops<W>, ft: Table<W>, fl: Table<W>, it: Table<W>, il: Table<W>,
                                             key: seq<bv8>, x: Quad<W>)
    requires Laws(o) && TablesRead(o, ft, fl, it, il) && GoodLength(key)
    ensures var ks := ScheduleQuads(o, fl, key);
            && DecryptWords(o, it, il, DecryptionWords(o, ks), EncryptWords(o, ft, fl, ks, x)) == x
            && BlockFrom(o, EncryptWords(o, ft, fl, ks, x)) == Cipher(Aes.RoundKeys(KeyBytes(key)), BlockFrom(o, x))
  {
    var ks := ScheduleQuads(o, fl, key);
    WordsRoundTrip(o, ft, fl, it, il, ks, x);
    EncryptWordsIs(o, ft, fl, ks, x);
    ScheduleQuadsAre(o, fl, key);
  }

  // ---------------------------------------------------------------- 32-bit words

  /** rol32 and ror32 by whole bytes, byte, star_x, and four bytes as a word. */
  ghost function Machine(): Ops<bv32> {
    Ops((x, y) => x ^ y,
        (x, n) => if n == 8 || n == 16 || n == 24 then Ror(x, n) else x,
        (x, n) => if n == 8 || n == 16 || n == 24 then Rol(x, n) else x,
        x => StarX(x),
        (x, n) => if n < 4 then Lane(x, n) as int else 0,
        (a, b, c, d) => Word(a, b, c, d),
        x => ColOf(x))
  }

  lemma {:induction false} ColRol8(x: bv32)
    ensures ColOf(Rol(x, 8)) == RotDown(ColOf(x))
  {
    var a, b, c, d := Lane(x, 0), Lane(x, 1), Lane(x, 2), Lane(x, 3);
    WordLanes(x);
    RolWord(a, b, c, d);
    ColWord(d, a, b, c);
  }

  lemma {:induction false} ColRol16(x: bv32)
    ensures ColOf(Rol(x, 16)) == RotDown(RotDown(ColOf(x)))
  {
    var a, b, c, d := Lane(x, 0), Lane(x, 1), Lane(x, 2), Lane(x, 3);
    WordLanes(x);
    RolWord16(a, b, c, d);
    ColWord(c, d, a, b);
  }

  lemma {:induction false} ColRol24(x: bv32)
    ensures ColOf(Rol(x, 24)) == RotDown(RotDown(RotDown(ColOf(x))))
  {
    var a, b, c, d := Lane(x, 0), Lane(x, 1), Lane(x, 2), Lane(x, 3);
    WordLanes(x);
    RolWord24(a, b, c, d);
    ColWord(b, c, d, a);
  }

  lemma {:induction false} LaneIndex(x: bv32, n: nat)
    requires n < 4
    ensures Lane(x, n) as int == Val(RowOf(ColOf(x), n)) as int
  {
    ValByte(Lane(x, n));
  }

  lemma {:induction false} MachineRor8()
    ensures forall x :: Machine().col(Machine().ror(x, 8)) == RotUp(Machine().col(x))
  {
    forall x: bv32 ensures ColOf(Ror(x, 8)) == RotUp(ColOf(x)) {
      ColRor8(x);
    }
  }

  lemma {:induction false} MachineRor16()
    ensures forall x :: Machine().col(Machine().ror(x, 16)) == RotUp(RotUp(Machine().col(x)))
  {
    forall x: bv32 ensures ColOf(Ror(x, 16)) == RotUp(RotUp(ColOf(x))) {
      ColRor16(x);
    }
  }

  lemma {:induction false} MachineRor24()
    ensures forall x :: Machine().col(Machine().ror(x, 24)) == RotUp(RotUp(RotUp(Machine().col(x))))
  {
    forall x: bv32 ensures ColOf(Ror(x, 24)) == RotUp(RotUp(RotUp(ColOf(x)))) {
      ColRor24(x);
    }
  }

  lemma {:induction false} MachineRol8()
    ensures forall x :: Machine().col(Machine().rol(x, 8)) == RotDown(Machine().col(x))
  {
    forall x: bv32 ensures ColOf(Rol(x, 8)) == RotDown(ColOf(x)) {
      ColRol8(x);
    }
  }

  lemma {:induction false} MachineRol16()
    ensures forall x :: Machine().col(Machine().rol(x, 16)) == RotDown(RotDown(Machine().col(x)))
  {
    forall x: bv32 ensures ColOf(Rol(x, 16)) == RotDown(RotDown(ColOf(x))) {
      ColRol16(x);
    }
  }

  lemma {:induction false} MachineRol24()
    ensures forall x :: Machine().col(Machine().rol(x, 24)) == RotDown(RotDown(RotDown(Machine().col(x))))
  {
    forall x: bv32 ensures ColOf(Rol(x, 24)) == RotDown(RotDown(RotDown(ColOf(x)))) {
      ColRol24(x);
    }
  }

  lemma {:induction false} MachineAdds()
    ensures XorLaw(Machine())
  {
    var o := Machine();
    forall x: bv32, y: bv32 ensures o.col(o.xor(x, y)) == XorCol(o.col(x), o.col(y)) {
      ColXor(x, y);
    }
  }

  lemma {:induction false} MachineStars()
    ensures StarLaw(Machine())
  {
    var o := Machine();
    forall x: bv32 ensures o.col(o.star(x)) == XtimeCol(o.col(x)) {
      ColStar(x);
    }
  }

  lemma {:induction false} MachineBytes()
    ensures ByteLaw(Machine())
  {
    var o := Machine();
    forall x: bv32, n: nat | n < 4 ensures o.byte(x, n) == Val(RowOf(o.col(x), n)) as int {
      LaneIndex(x, n);
    }
  }

  lemma {:induction false} MachineWords()
    ensures WordLaw(Machine())
  {
    var o := Machine();
    forall a, b, c, d ensures o.col(o.word(a, b, c, d)) == Col(ByteOf(a), ByteOf(b), ByteOf(c), ByteOf(d)) {
      ColWord(a, b, c, d);
    }
  }

  lemma {:induction false} MachineKnown()
    ensures Known(Machine())
  {
    var o := Machine();
    forall x: bv32, y: bv32 | o.col(x) == o.col(y) ensures x == y {
      ColInjective(x, y);
    }
  }

  /** The words of aes.c obey the laws, so all of the above is proved of them. */
  lemma {:induction false} MachineLaws()
    ensures Laws(Machine())
  {
    MachineRor8();
    MachineRor16();
    MachineRor24();
    MachineRol8();
    MachineRol16();
    MachineRol24();
    MachineAdds();
    MachineStars();
    MachineBytes();
    MachineWords();
    MachineKnown();
  }

  // ---------------------------------------------------------------- the tables exist

  ghost function RolledBy<W>(o: Ops<W>, words: seq<W>, n: nat): (r: seq<W>)
    ensures |r| == |words| && forall i :: 0 <= i < |r| ==> r[i] == o.rol(words[i], n)
  {
    seq(|words|, i requires 0 <= i < |words| => o.rol(words[i], n))
  }

  /** A table made of words and their rotated copies. */
  ghost function TableOf<W>(o: Ops<W>, words: seq<W>): (tab: Table<W>)
    requires |words| == 256
    ensures Shaped(tab) && forall i :: 0 <= i < 256 ==> Turned(o, tab, i, words[i])
  {
    [words, RolledBy(o, words, 8), RolledBy(o, words, 16), RolledBy(o, words, 24)]
  }

  ghost function PowTable(): (pow: seq<bv8>)
    ensures PowOk(pow)
  {
    seq(256, i requires 0 <= i < 256 => Power(i))
  }

  ghost function LogNo(k: nat): nat
    requires k < 256
  {
    if ByteNo(k) == 0 then 0 else Log(ByteNo(k))
  }

  lemma {:induction false} LogTable() returns (log: seq<nat>)
    ensures LogOk(log)
  {
    log := seq(256, k requires 0 <= k < 256 => LogNo(k));
    forall x: bv8 | x != 0 ensures log[x as int] == Log(x) { NoOfByte(x); }
  }

  ghost function ForwardWord<W>(o: Ops<W>, pow: seq<bv8>, log: seq<nat>, p: bv8): W
    requires PowOk(pow) && LogOk(log)
  {
    SmallLogs(log, p);
    o.word(FFMult(pow, log, 2, p), p, p, FFMult(pow, log, 3, p))
  }

  /** The words of ft_tab[0], it_tab[0], and fl_tab[0] or il_tab[0], for the entries of an S-box. */
  ghost function ForwardWords<W>(o: Ops<W>, pow: seq<bv8>, log: seq<nat>, box: seq<bv8>): (r: seq<W>)
    requires PowOk(pow) && LogOk(log)
    ensures |r| == |box|
    ensures forall i :: 0 <= i < |r| ==> r[i] == ForwardWord(o, pow, log, box[i])
  {
    seq(|box|, i requires 0 <= i < |box| => ForwardWord(o, pow, log, box[i]))
  }

  ghost function InverseWord<W>(o: Ops<W>, pow: seq<bv8>, log: seq<nat>, p: bv8): W
    requires PowOk(pow) && LogOk(log)
  {
    SmallLogs(log, p);
    o.word(FFMult(pow, log, 14, p), FFMult(pow, log, 9, p), FFMult(pow, log, 13, p), FFMult(pow, log, 11, p))
  }

  ghost function InverseWords<W>(o: Ops<W>, pow: seq<bv8>, log: seq<nat>, box: seq<bv8>): (r: seq<W>)
    requires PowOk(pow) && LogOk(log)
    ensures |r| == |box|
    ensures forall i :: 0 <= i < |r| ==> r[i] == InverseWord(o, pow, log, box[i])
  {
    seq(|box|, i requires 0 <= i < |box| => InverseWord(o, pow, log, box[i]))
  }

  ghost function LastWords<W>(o: Ops<W>, box: seq<bv8>): (r: seq<W>)
    ensures |r| == |box| && forall i :: 0 <= i < |r| ==> r[i] == o.word(box[i], 0, 0, 0)
  {
    seq(|box|, i requires 0 <= i < |box| => o.word(box[i], 0, 0, 0))
  }

  ghost function Sbox(): (sbx: seq<bv8>)
    ensures SboxTo(sbx, 256)
  {
    seq(256, k requires 0 <= k < 256 => SubByte(ByteNo(k)))
  }

  ghost function InvSbox(): (isb: seq<bv8>)
    ensures IsbOk(isb)
  {
    seq(256, k requires 0 <= k < 256 => InvSubByte(ByteNo(k)))
  }

  lemma {:induction false} ForwardTables<W>(o: Ops<W>, pow: seq<bv8>, log: seq<nat>, sbx: seq<bv8>)
      returns (ft: Table<W>, fl: Table<W>)
    requires PowOk(pow) && LogOk(log) && |sbx| == 256
    ensures Shaped(ft) && Shaped(fl) && forall i :: 0 <= i < 256 ==> ForwardStored(o, pow, log, ft, fl, i, sbx[i])
  {
    ft, fl := TableOf(o, ForwardWords(o, pow, log, sbx)), TableOf(o, LastWords(o, sbx));
    forall i | 0 <= i < 256 ensures ForwardStored(o, pow, log, ft, fl, i, sbx[i]) {
      assert Turned(o, ft, i, ForwardWord(o, pow, log, sbx[i]));
    }
  }

  lemma {:induction false} InverseTables<W>(o: Ops<W>, pow: seq<bv8>, log: seq<nat>, isb: seq<bv8>)
      returns (it: Table<W>, il: Table<W>)
    requires PowOk(pow) && LogOk(log) && |isb| == 256
    ensures Shaped(it) && Shaped(il) && forall i :: 0 <= i < 256 ==> InverseStored(o, pow, log, it, il, i, isb[i])
  {
    it, il := TableOf(o, InverseWords(o, pow, log, isb)), TableOf(o, LastWords(o, isb));
    forall i | 0 <= i < 256 ensures InverseStored(o, pow, log, it, il, i, isb[i]) {
      assert Turned(o, it, i, InverseWord(o, pow, log, isb[i]));
    }
  }

  /** For any words that obey the laws there are the tables that gen_tabs fills in. */
  lemma {:induction false} TablesExist<W(!new)>(o: Ops<W>)
      returns (ft: Table<W>, fl: Table<W>, it: Table<W>, il: Table<W>)
    requires Laws(o)
    ensures TablesRead(o, ft, fl, it, il)
  {
    var pow, sbx, isb := PowTable(), Sbox(), InvSbox();
    var log := LogTable();
    ft, fl := ForwardTables(o, pow, log, sbx);
    it, il := InverseTables(o, pow, log, isb);
    GeneratedReads(o, pow, log, sbx, isb, ft, fl, it, il);
  }

  lemma {:induction false} MachineTables()
      returns (ft: Table<bv32>, fl: Table<bv32>, it: Table<bv32>, il: Table<bv32>)
    ensures TablesRead(Machine(), ft, fl, it, il)
  {
    MachineLaws();
    var o := Machine();
    ft, fl, it, il := TablesExist(o);
  }

  /** On 32-bit words: decrypting the words of an encryption gives the words back, for every key and block. */
  lemma {:induction false} MachineRoundTrip(o: Ops<bv32>, ft: Table<bv32>, fl: Table<bv32>, it: Table<bv32>,
                                            il: Table<bv32>, key: seq<bv8>, x: Quad<bv32>)
    requires o == Machine() && TablesRead(o, ft, fl, it, il) && GoodLength(key)
    ensures var ks := ScheduleQuads(o, fl, key);
            DecryptWords(o, it, il, DecryptionWords(o, ks), EncryptWords(o, ft, fl, ks, x)) == x
  {
    MachineLaws();
    RoundTrip(o, ft, fl, it, il, key, x);
  }
}
