// aes.c: table-driven AES. A 32-bit word is modelled by its four bytes, least significant first; AesMachine proves the
// same of the computation on 32-bit words.
module Aes {
  import opened Gf256
  import opened AesSpec
  import opened AesWords
  import opened AesRounds
  import opened AesTables
  import opened AesTableRounds

  const EINVAL: int := 22

  // ---------------------------------------------------------------- key expansion (section 5.2 of FIPS 197)

  /** x to the power i. */
  function Rcon(i: nat): Byte {
    if i == 0 then ONE else Xtime(Rcon(i - 1))
  }

  ghost predicate GoodKey(key: seq<Byte>) { |key| == 16 || |key| == 24 || |key| == 32 }

  function KeyCol(key: seq<Byte>, i: nat): Col
    requires 4 * i + 4 <= |key|
  {
    Col(key[4 * i], key[4 * i + 1], key[4 * i + 2], key[4 * i + 3])
  }

  ghost function Temp(t: Col, nk: nat, i: nat): Col
    requires 0 < nk <= i
  {
    if i % nk == 0 then XorCol(SubCol(RotUp(t)), LastPart(Rcon(i / nk - 1)))
    else if nk > 6 && i % nk == 4 then SubCol(t)
    else t
  }

  /** Word i of the expanded key. */
  ghost function KeyWord(key: seq<Byte>, i: nat): Col
    requires GoodKey(key)
  {
    var nk := |key| / 4;
    if i < nk then KeyCol(key, i)
    else XorCol(KeyWord(key, i - nk), Temp(KeyWord(key, i - 1), nk, i))
  }

  ghost function KeyBlockAt(key: seq<Byte>, k: nat): Block
    requires GoodKey(key)
  {
    Block(KeyWord(key, k), KeyWord(key, k + 1), KeyWord(key, k + 2), KeyWord(key, k + 3))
  }

  ghost function KeyBlock(key: seq<Byte>, i: nat): Block
    requires GoodKey(key)
  {
    KeyBlockAt(key, 4 * i)
  }

  /** The number of rounds. */
  function Rounds(keyLength: nat): nat { keyLength / 4 + 6 }

  ghost function RoundKeys(key: seq<Byte>): (rk: seq<Block>)
    requires GoodKey(key)
    ensures |rk| == Rounds(|key|) + 1
    ensures forall i :: 0 <= i < |rk| ==> rk[i] == KeyBlock(key, i)
  {
    seq(Rounds(|key|) + 1, i requires 0 <= i => KeyBlock(key, i))
  }

  lemma {:induction false} XorColComm(a: Col, b: Col)
    ensures XorCol(a, b) == XorCol(b, a)
  {
    XorComm(a.r0, b.r0);
    XorComm(a.r1, b.r1);
    XorComm(a.r2, b.r2);
    XorComm(a.r3, b.r3);
  }

  // ---------------------------------------------------------------- tables

  ghost predicate RcoOk(rco: array<Col>)
    reads rco
  {
    rco.Length == 10 && forall i :: 0 <= i < 10 ==> rco[i] == LastPart(Rcon(i))
  }

  /** The second loop of gen_tabs. */
  method FillRcon(rco: array<Col>)
    requires rco.Length == 10
    modifies rco
    ensures RcoOk(rco)
  {
    var p: bv8 := 1;
    ByteOne();
    for i := 0 to 10
      invariant ByteOf(p) == Rcon(i)
      invariant forall j :: 0 <= j < i ==> rco[j] == LastPart(Rcon(j))
    {
      rco[i] := LastPart(ByteOf(p));
      ByteXtime(p);
      p := (p << 1) ^ (if p & 0x80 != 0 then 0x1b else 0);
    }
  }

  ghost predicate TablesOk(ft: array2<Col>, fl: array2<Col>, it: array2<Col>, il: array2<Col>, rco: array<Col>)
    reads ft, fl, it, il, rco
  {
    RoundTable(ft, 256) && LastTable(fl, 256) && InvRoundTable(it, 256) && InvLastTable(il, 256) && RcoOk(rco)
  }

  /** gen_tabs */
  method GenTabs(ft: array2<Col>, fl: array2<Col>, it: array2<Col>, il: array2<Col>, rco: array<Col>)
    requires ft.Length0 == fl.Length0 == it.Length0 == il.Length0 == 4
    requires ft.Length1 == fl.Length1 == it.Length1 == il.Length1 == 256 && rco.Length == 10
    requires ft != fl && ft != it && ft != il && fl != it && fl != il && it != il
    modifies ft, fl, it, il, rco
    ensures TablesOk(ft, fl, it, il, rco)
  {
    var pow, log := new bv8[256], new nat[256];
    var sbx, isb := new bv8[256], new bv8[256];
    FillPowers(pow, log);
    FillRcon(rco);
    FillSboxes(pow, log, sbx, isb);
    FillForward(pow, log, sbx, fl, ft);
    FillInverse(pow, log, isb, il, it);
  }

  /** ls_box */
  method LsBox(fl: array2<Col>, x: Col) returns (y: Col)
    requires LastTable(fl, 256)
    ensures y == SubCol(x)
  {
    LastEntries(fl, x.r0, x.r1, x.r2, x.r3);
    y := Four4(fl[0, Val(x.r0) as int], fl[1, Val(x.r1) as int], fl[2, Val(x.r2) as int], fl[3, Val(x.r3) as int]);
  }

  // ---------------------------------------------------------------- aes_set_key

  /** The first n words of the expanded key, in order. */
  ghost function Words(key: seq<Byte>, n: nat): (w: seq<Col>)
    requires GoodKey(key)
    ensures |w| == n
  {
    if n == 0 then [] else Words(key, n - 1) + [KeyWord(key, n - 1)]
  }

  lemma {:induction false} WordsAt(key: seq<Byte>, n: nat, j: nat)
    requires GoodKey(key) && j < n
    ensures Words(key, n)[j] == KeyWord(key, j)
  {
    if j < n - 1 { WordsAt(key, n - 1, j); }
  }

  lemma {:induction false} WordNext(key: seq<Byte>, w: seq<Col>, nk: nat, j: nat)
    requires GoodKey(key) && w == Words(key, |w|) && nk == |key| / 4 <= j < |w|
    ensures w[j] == XorCol(Temp(w[j - 1], nk, j), w[j - nk])
  {
    WordsAt(key, |w|, j);
    WordsAt(key, |w|, j - 1);
    WordsAt(key, |w|, j - nk);
    XorColComm(KeyWord(key, j - nk), Temp(KeyWord(key, j - 1), nk, j));
  }

  lemma {:induction false} PlainWord(key: seq<Byte>, w: seq<Col>, nk: nat, j: nat)
    requires GoodKey(key) && w == Words(key, |w|) && nk == |key| / 4 <= j < |w|
    requires j % nk != 0 && (nk > 6 ==> j % nk != 4)
    ensures w[j] == XorCol(w[j - 1], w[j - nk])
  {
    WordNext(key, w, nk, j);
  }

  lemma {:induction false} TempFirst(t: Col, nk: nat, i: nat, j: nat)
    requires 0 < nk <= j && j % nk == 0 && j / nk == i + 1
    ensures Temp(t, nk, j) == XorCol(SubCol(RotUp(t)), LastPart(Rcon(i)))
  {
  }

  lemma {:induction false} FirstWord(key: seq<Byte>, w: seq<Col>, nk: nat, i: nat, j: nat)
    requires GoodKey(key) && w == Words(key, |w|) && nk == |key| / 4 <= j < |w| && j % nk == 0 && j / nk == i + 1
    ensures w[j] == XorCol(XorCol(SubCol(RotUp(w[j - 1])), LastPart(Rcon(i))), w[j - nk])
  {
    WordNext(key, w, nk, j);
    TempFirst(w[j - 1], nk, i, j);
  }

  lemma {:induction false} TempMiddle(t: Col, nk: nat, j: nat)
    requires 6 < nk <= j && j % nk == 4
    ensures Temp(t, nk, j) == SubCol(t)
  {
  }

  lemma {:induction false} MiddleWord(key: seq<Byte>, w: seq<Col>, nk: nat, j: nat)
    requires GoodKey(key) && w == Words(key, |w|) && 6 < nk == |key| / 4 <= j < |w| && j % nk == 4
    ensures w[j] == XorCol(SubCol(w[j - 1]), w[j - nk])
  {
    WordNext(key, w, nk, j);
    TempMiddle(w[j - 1], nk, j);
  }

  /** The first n words of w are in place. */
  ghost predicate InPlace(buf: array<Col>, w: seq<Col>, n: nat)
    reads buf
  {
    n <= |w| <= buf.Length && forall j :: 0 <= j < n ==> buf[j] == w[j]
  }

  /** t is added to word j - nk and gives word j. */
  method PutWord(buf: array<Col>, ghost w: seq<Col>, nk: nat, j: nat, t: Col) returns (t': Col)
    requires 0 < nk <= j < |w| && InPlace(buf, w, j) && w[j] == XorCol(t, w[j - nk])
    modifies buf
    ensures InPlace(buf, w, j + 1) && t' == w[j]
  {
    t' := XorCol(t, buf[j - nk]);
    buf[j] := t';
  }

  method PutPlain(buf: array<Col>, ghost key: seq<Byte>, ghost w: seq<Col>, nk: nat, j: nat, t: Col) returns (t': Col)
    requires GoodKey(key) && w == Words(key, |w|) && nk == |key| / 4 <= j < |w| && InPlace(buf, w, j)
    requires j % nk != 0 && (nk > 6 ==> j % nk != 4) && t == w[j - 1]
    modifies buf
    ensures InPlace(buf, w, j + 1) && t' == w[j]
  {
    PlainWord(key, w, nk, j);
    t' := PutWord(buf, w, nk, j, t);
  }

  /** The first word of a row of the schedule. */
  method PutFirst(fl: array2<Col>, rco: array<Col>, buf: array<Col>, ghost key: seq<Byte>, ghost w: seq<Col>, nk: nat,
                  i: nat, j: nat, t: Col) returns (t': Col)
    requires LastTable(fl, 256) && RcoOk(rco) && rco != buf && i < 10
    requires GoodKey(key) && w == Words(key, |w|) && nk == |key| / 4 <= j < |w| && j % nk == 0 && j / nk == i + 1
    requires InPlace(buf, w, j) && t == w[j - 1]
    modifies buf
    ensures InPlace(buf, w, j + 1) && t' == w[j]
  {
    t' := LsBox(fl, RotUp(t));
    FirstWord(key, w, nk, i, j);
    t' := PutWord(buf, w, nk, j, XorCol(t', rco[i]));
  }

  /** The middle word of a row of eight. */
  method PutMiddle(fl: array2<Col>, buf: array<Col>, ghost key: seq<Byte>, ghost w: seq<Col>, nk: nat, j: nat, t: Col)
      returns (t': Col)
    requires LastTable(fl, 256) && GoodKey(key) && w == Words(key, |w|) && 6 < nk == |key| / 4 <= j < |w| && j % nk == 4
    requires InPlace(buf, w, j) && t == w[j - 1]
    modifies buf
    ensures InPlace(buf, w, j + 1) && t' == w[j]
  {
    t' := LsBox(fl, t);
    MiddleWord(key, w, nk, j);
    t' := PutWord(buf, w, nk, j, t');
  }

  /** loop4 */
  method Loop4(fl: array2<Col>, rco: array<Col>, buf: array<Col>, ghost key: seq<Byte>, ghost w: seq<Col>, i: nat,
               t: Col)
      returns (t': Col)
    requires LastTable(fl, 256) && RcoOk(rco) && rco != buf && |key| == 16 && i < 10 && |w| == 44
    requires w == Words(key, |w|) && InPlace(buf, w, 4 * i + 4) && t == w[4 * i + 3]
    modifies buf
    ensures InPlace(buf, w, 4 * i + 8) && t' == w[4 * i + 7]
  {
    t' := PutFirst(fl, rco, buf, key, w, 4, i, 4 * i + 4, t);
    t' := PutPlain(buf, key, w, 4, 4 * i + 5, t');
    t' := PutPlain(buf, key, w, 4, 4 * i + 6, t');
    t' := PutPlain(buf, key, w, 4, 4 * i + 7, t');
  }

  lemma {:induction false} Row6(i: nat, k: nat)
    requires k < 6
    ensures (6 * i + 6 + k) % 6 == k && (6 * i + 6 + k) / 6 == i + 1
  {
  }

  method PutFive(buf: array<Col>, ghost key: seq<Byte>, ghost w: seq<Col>, i: nat, t: Col) returns (t': Col)
    requires |key| == 24 && w == Words(key, |w|) && 6 * i + 12 <= |w|
    requires InPlace(buf, w, 6 * i + 7) && t == w[6 * i + 6]
    modifies buf
    ensures InPlace(buf, w, 6 * i + 12) && t' == w[6 * i + 11]
  {
    t' := t;
    for k := 1 to 6
      invariant InPlace(buf, w, 6 * i + 6 + k) && t' == w[6 * i + 5 + k]
    {
      Row6(i, k);
      t' := PutPlain(buf, key, w, 6, 6 * i + 6 + k, t');
    }
  }

  /** loop6 */
  method Loop6(fl: array2<Col>, rco: array<Col>, buf: array<Col>, ghost key: seq<Byte>, ghost w: seq<Col>, i: nat,
               t: Col)
      returns (t': Col)
    requires LastTable(fl, 256) && RcoOk(rco) && rco != buf && |key| == 24 && i < 8 && |w| == 54
    requires w == Words(key, |w|) && InPlace(buf, w, 6 * i + 6) && t == w[6 * i + 5]
    modifies buf
    ensures InPlace(buf, w, 6 * i + 12) && t' == w[6 * i + 11]
  {
    Row6(i, 0);
    t' := PutFirst(fl, rco, buf, key, w, 6, i, 6 * i + 6, t);
    t' := PutFive(buf, key, w, i, t');
  }

  lemma {:induction false} Row8(i: nat, k: nat)
    requires k < 8
    ensures (8 * i + 8 + k) % 8 == k && (8 * i + 8 + k) / 8 == i + 1
  {
  }

  /** A word of loop8 that takes no substitution. */
  method PutInRow(buf: array<Col>, ghost key: seq<Byte>, ghost w: seq<Col>, i: nat, k: nat, t: Col) returns (t': Col)
    requires |key| == 32 && w == Words(key, |w|) && 8 * i + 16 <= |w| && 0 < k < 8 && k != 4
    requires InPlace(buf, w, 8 * i + 8 + k) && t == w[8 * i + 7 + k]
    modifies buf
    ensures InPlace(buf, w, 8 * i + 9 + k) && t' == w[8 * i + 8 + k]
  {
    Row8(i, k);
    t' := PutPlain(buf, key, w, 8, 8 * i + 8 + k, t);
  }

  /** The last three words of either half of a row of eight. */
  method PutThree(buf: array<Col>, ghost key: seq<Byte>, ghost w: seq<Col>, i: nat, k: nat, t: Col) returns (t': Col)
    requires |key| == 32 && w == Words(key, |w|) && 8 * i + 16 <= |w| && (k == 1 || k == 5)
    requires InPlace(buf, w, 8 * i + 8 + k) && t == w[8 * i + 7 + k]
    modifies buf
    ensures InPlace(buf, w, 8 * i + 11 + k) && t' == w[8 * i + 10 + k]
  {
    t' := PutInRow(buf, key, w, i, k, t);
    t' := PutInRow(buf, key, w, i, k + 1, t');
    t' := PutInRow(buf, key, w, i, k + 2, t');
  }

  method FirstHalf(fl: array2<Col>, rco: array<Col>, buf: array<Col>, ghost key: seq<Byte>, ghost w: seq<Col>, i: nat,
                   t: Col)
      returns (t': Col)
    requires LastTable(fl, 256) && RcoOk(rco) && rco != buf && |key| == 32 && i < 7 && |w| == 64
    requires w == Words(key, |w|) && InPlace(buf, w, 8 * i + 8) && t == w[8 * i + 7]
    modifies buf
    ensures InPlace(buf, w, 8 * i + 12) && t' == w[8 * i + 11]
  {
    Row8(i, 0);
    t' := PutFirst(fl, rco, buf, key, w, 8, i, 8 * i + 8, t);
    t' := PutThree(buf, key, w, i, 1, t');
  }

  method SecondHalf(fl: array2<Col>, buf: array<Col>, ghost key: seq<Byte>, ghost w: seq<Col>, i: nat, t: Col)
      returns (t': Col)
    requires LastTable(fl, 256) && |key| == 32 && i < 7 && |w| == 64
    requires w == Words(key, |w|) && InPlace(buf, w, 8 * i + 12) && t == w[8 * i + 11]
    modifies buf
    ensures InPlace(buf, w, 8 * i + 16) && t' == w[8 * i + 15]
  {
    Row8(i, 4);
    t' := PutMiddle(fl, buf, key, w, 8, 8 * i + 12, t);
    t' := PutThree(buf, key, w, i, 5, t');
  }

  /** loop8 */
  method Loop8(fl: array2<Col>, rco: array<Col>, buf: array<Col>, ghost key: seq<Byte>, ghost w: seq<Col>, i: nat,
               t: Col)
      returns (t': Col)
    requires LastTable(fl, 256) && RcoOk(rco) && rco != buf && |key| == 32 && i < 7 && |w| == 64
    requires w == Words(key, |w|) && InPlace(buf, w, 8 * i + 8) && t == w[8 * i + 7]
    modifies buf
    ensures InPlace(buf, w, 8 * i + 16) && t' == w[8 * i + 15]
  {
    t' := FirstHalf(fl, rco, buf, key, w, i, t);
    t' := SecondHalf(fl, buf, key, w, i, t');
  }

  /** The words of the key itself, from word `from` on. */
  method LoadKey(buf: array<Col>, key: seq<Byte>, ghost w: seq<Col>, from: nat, to: nat)
    requires GoodKey(key) && w == Words(key, |w|) && from <= to <= |key| / 4 <= |w| && InPlace(buf, w, from)
    modifies buf
    ensures InPlace(buf, w, to)
  {
    for i := from to to
      invariant InPlace(buf, w, i)
    {
      WordsAt(key, |w|, i);
      buf[i] := KeyCol(key, i);
    }
  }

  method Expand4(fl: array2<Col>, rco: array<Col>, buf: array<Col>, key: seq<Byte>, ghost w: seq<Col>)
    requires LastTable(fl, 256) && RcoOk(rco) && rco != buf && |key| == 16 && |w| == 44
    requires w == Words(key, |w|) && InPlace(buf, w, 4)
    modifies buf
    ensures InPlace(buf, w, 44)
  {
    var t := buf[3];
    for i := 0 to 10
      invariant InPlace(buf, w, 4 * i + 4) && t == w[4 * i + 3]
    {
      t := Loop4(fl, rco, buf, key, w, i, t);
    }
  }

  method Expand6(fl: array2<Col>, rco: array<Col>, buf: array<Col>, key: seq<Byte>, ghost w: seq<Col>)
    requires LastTable(fl, 256) && RcoOk(rco) && rco != buf && |key| == 24 && |w| == 54
    requires w == Words(key, |w|) && InPlace(buf, w, 4)
    modifies buf
    ensures InPlace(buf, w, 54)
  {
    LoadKey(buf, key, w, 4, 6);
    var t := buf[5];
    for i := 0 to 8
      invariant InPlace(buf, w, 6 * i + 6) && t == w[6 * i + 5]
    {
      t := Loop6(fl, rco, buf, key, w, i, t);
    }
  }

  method Expand8(fl: array2<Col>, rco: array<Col>, buf: array<Col>, key: seq<Byte>, ghost w: seq<Col>)
    requires LastTable(fl, 256) && RcoOk(rco) && rco != buf && |key| == 32 && |w| == 64
    requires w == Words(key, |w|) && InPlace(buf, w, 4)
    modifies buf
    ensures InPlace(buf, w, 64)
  {
    LoadKey(buf, key, w, 4, 8);
    var t := buf[7];
    for i := 0 to 7
      invariant InPlace(buf, w, 8 * i + 8) && t == w[8 * i + 7]
    {
      t := Loop8(fl, rco, buf, key, w, i, t);
    }
  }

  /** The encryption keys in E_KEY, as far as they are used. */
  ghost predicate EncryptionKeysIn(buf: array<Col>, w: seq<Col>, keyLength: nat)
    reads buf
  {
    buf.Length == 120 && keyLength + 28 <= |w| && keyLength <= 32
    && forall j :: 0 <= j < keyLength + 28 ==> buf[j] == w[j]
  }

  lemma {:induction false} WordsPrefix(key: seq<Byte>, m: nat, n: nat)
    requires GoodKey(key) && m <= n
    ensures Words(key, n)[..m] == Words(key, m)
  {
    if m < n { WordsPrefix(key, m, n - 1); }
  }

  /** The first part of aes_set_key. */
  method Expand(fl: array2<Col>, rco: array<Col>, buf: array<Col>, key: seq<Byte>, ghost w: seq<Col>)
    requires LastTable(fl, 256) && RcoOk(rco) && rco != buf && GoodKey(key) && buf.Length == 120 && w == Words(key, 64)
    modifies buf
    ensures EncryptionKeysIn(buf, w, |key|)
  {
    if |key| == 16 {
      WordsPrefix(key, 44, 64);
      LoadKey(buf, key, w[..44], 0, 4);
      Expand4(fl, rco, buf, key, w[..44]);
    } else if |key| == 24 {
      WordsPrefix(key, 54, 64);
      LoadKey(buf, key, w[..54], 0, 4);
      Expand6(fl, rco, buf, key, w[..54]);
    } else {
      LoadKey(buf, key, w, 0, 4);
      Expand8(fl, rco, buf, key, w);
    }
  }

  /** u is InvMixColumns on a column. */
  ghost predicate Unmixes(u: Col -> Col) {
    forall x {:trigger UnmixCol(x)} :: UnmixCol(x) == u(x)
  }

  method Imix(x: Col, ghost u: Col -> Col) returns (y: Col)
    requires Unmixes(u)
    ensures y == u(x)
  {
    y := ImixCol(x);
    ImixIs(x);
  }

  /** The first n words of D_KEY: InvMixColumns of those of E_KEY, but for the first round key. */
  ghost function DWords(u: Col -> Col, w: seq<Col>, n: nat): (d: seq<Col>)
    requires n <= |w|
    ensures |d| == n
    ensures forall j :: 0 <= j < n ==> d[j] == if j < 4 then w[j] else u(w[j])
  {
    seq(n, j requires 0 <= j < n => if j < 4 then w[j] else u(w[j]))
  }

  ghost predicate DecryptionKeysIn(buf: array<Col>, d: seq<Col>, n: nat)
    reads buf
  {
    buf.Length == 120 && n <= |d| <= 60 && forall j :: 0 <= j < n ==> buf[60 + j] == d[j]
  }

  /** The last part of aes_set_key. */
  method MakeDecryptionKeys(buf: array<Col>, keyLength: nat, ghost u: Col -> Col, ghost w: seq<Col>, ghost d: seq<Col>)
    requires Unmixes(u) && EncryptionKeysIn(buf, w, keyLength) && |d| == keyLength + 24 && d == DWords(u, w, |d|)
    modifies buf
    ensures EncryptionKeysIn(buf, w, keyLength) && DecryptionKeysIn(buf, d, keyLength + 24)
  {
    for i := 0 to 4
      invariant EncryptionKeysIn(buf, w, keyLength) && DecryptionKeysIn(buf, d, i)
    {
      buf[60 + i] := buf[i];
    }
    for i := 4 to keyLength + 24
      invariant EncryptionKeysIn(buf, w, keyLength) && DecryptionKeysIn(buf, d, i)
    {
      var y := Imix(buf[i], u);
      buf[60 + i] := y;
    }
  }

  // ---------------------------------------------------------------- the round keys a context holds

  /** Round key i is kept in the four words from off + 4 * i on. */
  ghost predicate KeysIn(buf: array<Col>, off: nat, rk: seq<Block>, n: nat)
    reads buf
  {
    n <= |rk| && off + 4 * n <= buf.Length && forall i :: 0 <= i < n ==> BlockIn(buf, off + 4 * i) == rk[i]
  }

  ghost function UnmixedBlock(u: Col -> Col, k: Block): Block { Block(u(k.c0), u(k.c1), u(k.c2), u(k.c3)) }

  /** The decryption round keys. */
  ghost function DecKeys(u: Col -> Col, rk: seq<Block>): (dk: seq<Block>)
    requires |rk| > 1
    ensures |dk| == |rk| && dk[0] == rk[0] && dk[|rk| - 1] == rk[|rk| - 1]
    ensures forall i :: 0 < i < |rk| - 1 ==> dk[i] == UnmixedBlock(u, rk[i])
  {
    seq(|rk|, i requires 0 <= i < |rk| => if i == 0 || i == |rk| - 1 then rk[i] else UnmixedBlock(u, rk[i]))
  }

  lemma {:induction false} DecKeysAre(rk: seq<Block>)
    requires |rk| > 1
    ensures DecryptionKeys(rk, DecKeys(UnmixCol, rk))
  {
    forall i | 0 < i < |rk| - 1 ensures DecKeys(UnmixCol, rk)[i] == InvMixColumns(rk[i]) {
    }
  }

  ghost function BlockAt(s: seq<Col>, k: nat): Block
    requires k + 4 <= |s|
  {
    Block(s[k], s[k + 1], s[k + 2], s[k + 3])
  }

  lemma {:induction false} FourWords(key: seq<Byte>, w: seq<Col>, a: nat, b: nat, c: nat, d: nat)
    requires GoodKey(key) && w == Words(key, |w|) && a < |w| && b < |w| && c < |w| && d < |w|
    ensures Block(w[a], w[b], w[c], w[d]) == Block(KeyWord(key, a), KeyWord(key, b), KeyWord(key, c), KeyWord(key, d))
  {
    WordsAt(key, |w|, a);
    WordsAt(key, |w|, b);
    WordsAt(key, |w|, c);
    WordsAt(key, |w|, d);
  }

  lemma {:induction false} KeyBlockIs(key: seq<Byte>, w: seq<Col>, k: nat)
    requires GoodKey(key) && w == Words(key, |w|) && k + 4 <= |w|
    ensures BlockAt(w, k) == KeyBlockAt(key, k)
  {
    FourWords(key, w, k, k + 1, k + 2, k + 3);
  }

  lemma {:induction false} EncryptionBlock(key: seq<Byte>, w: seq<Col>, i: nat)
    requires GoodKey(key) && w == Words(key, |w|) && 4 * i + 4 <= |w|
    ensures BlockAt(w, 4 * i) == KeyBlock(key, i)
  {
    KeyBlockIs(key, w, 4 * i);
  }

  lemma {:induction false} DecryptionBlocks(buf: array<Col>, u: Col -> Col, w: seq<Col>, d: seq<Col>, rk: seq<Block>,
                                            dk: seq<Block>)
    requires |d| <= |w| && d == DWords(u, w, |d|) && |d| == 4 * |rk| - 4 && 60 + |d| <= buf.Length && |rk| > 1
    requires forall i :: 0 <= i < |rk| - 1 ==> rk[i] == BlockAt(w, 4 * i)
    requires forall j :: 0 <= j < |d| ==> buf[60 + j] == d[j]
    requires dk == DecKeys(u, rk)
    ensures KeysIn(buf, 60, dk, |rk| - 1)
  {
    forall i | 0 <= i < |rk| - 1 ensures BlockIn(buf, 60 + 4 * i) == dk[i] {
      assert rk[i] == BlockAt(w, 4 * i);
    }
  }

  // ---------------------------------------------------------------- aes_encrypt and aes_decrypt

  function BlockOf(s: seq<Byte>): Block
    requires |s| == 16
  {
    Block(KeyCol(s, 0), KeyCol(s, 1), KeyCol(s, 2), KeyCol(s, 3))
  }

  method StoreCol(out: array<Byte>, i: nat, c: Col)
    requires out.Length == 16 && i < 4
    modifies out
    ensures KeyCol(out[..], i) == c
    ensures forall j :: 0 <= j < 16 && !(4 * i <= j < 4 * i + 4) ==> out[j] == old(out[j])
  {
    out[4 * i] := c.r0;
    out[4 * i + 1] := c.r1;
    out[4 * i + 2] := c.r2;
    out[4 * i + 3] := c.r3;
  }

  method StoreBlock(out: array<Byte>, b: Block)
    requires out.Length == 16
    modifies out
    ensures BlockOf(out[..]) == b
  {
    StoreCol(out, 0, b.c0);
    StoreCol(out, 1, b.c1);
    StoreCol(out, 2, b.c2);
    StoreCol(out, 3, b.c3);
  }

  /** The state after the rounds 1 to i, with the keys in E_KEY. */
  ghost function Run(f: (Block, Block) -> Block, buf: array<Col>, i: nat, x: Block): Block
    reads buf
    requires 4 * i + 4 <= buf.Length
  {
    if i == 0 then x else f(Run(f, buf, i - 1, x), BlockIn(buf, 4 * i))
  }

  /** The state after i rounds whose keys are read downwards from `top`. */
  ghost function RunDown(f: (Block, Block) -> Block, buf: array<Col>, top: nat, i: nat, x: Block): Block
    reads buf
    requires top + 4 <= buf.Length && 4 * i <= top + 4
  {
    if i == 0 then x else f(RunDown(f, buf, top, i - 1, x), BlockIn(buf, top + 4 - 4 * i))
  }

  /** Two calls of f_nround. */
  method FTwo(ft: array2<Col>, b0: Block, buf: array<Col>, kp: nat,
              ghost f: (Block, Block) -> Block, ghost i: nat, ghost x: Block) returns (b0': Block, k: nat)
    requires Computes(ft, f) && kp == 4 * i + 4 && 4 * i + 12 <= buf.Length && b0 == Run(f, buf, i, x)
    ensures k == kp + 8 && b0' == Run(f, buf, i + 2, x)
  {
    var b1;
    b1, k := FNround(ft, b0, buf, kp, f);
    assert b1 == Run(f, buf, i + 1, x);
    b0', k := FNround(ft, b1, buf, k, f);
  }

  /** Two calls of i_nround. */
  method ITwo(it: array2<Col>, b0: Block, buf: array<Col>, kp: nat,
              ghost f: (Block, Block) -> Block, ghost top: nat, ghost i: nat, ghost x: Block)
                  returns (b0': Block, k: int)
    requires ComputesInverse(it, f) && top + 4 <= buf.Length && 4 * i + 4 <= top && kp == top - 4 * i
    requires b0 == RunDown(f, buf, top, i, x)
    ensures k == kp - 8 && b0' == RunDown(f, buf, top, i + 2, x)
  {
    var b1;
    b1, k := INround(it, b0, buf, kp, f);
    assert b1 == RunDown(f, buf, top, i + 1, x);
    b0', k := INround(it, b1, buf, k, f);
  }

  method FFour(ft: array2<Col>, b0: Block, buf: array<Col>, kp: nat,
               ghost f: (Block, Block) -> Block, ghost i: nat, ghost x: Block) returns (b0': Block, k: nat)
    requires Computes(ft, f) && kp == 4 * i + 4 && 4 * i + 20 <= buf.Length && b0 == Run(f, buf, i, x)
    ensures k == kp + 16 && b0' == Run(f, buf, i + 4, x)
  {
    b0', k := FTwo(ft, b0, buf, kp, f, i, x);
    b0', k := FTwo(ft, b0', buf, k, f, i + 2, x);
  }

  /** The last ten rounds of aes_encrypt, after i others. */
  method TenRounds(ft: array2<Col>, fl: array2<Col>, b: Block, buf: array<Col>, kp: nat,
                   ghost f: (Block, Block) -> Block,
                   ghost g: (Block, Block) -> Block, ghost i: nat, ghost x: Block) returns (y: Block)
    requires Computes(ft, f) && Computes(fl, g) && kp == 4 * i + 4 && 4 * i + 44 <= buf.Length && b == Run(f, buf, i, x)
    ensures y == g(Run(f, buf, i + 9, x), BlockIn(buf, 4 * i + 40))
  {
    var b0, k := FFour(ft, b, buf, kp, f, i, x);
    b0, k := FFour(ft, b0, buf, k, f, i + 4, x);
    var b1;
    b1, k := FNround(ft, b0, buf, k, f);
    assert b1 == Run(f, buf, i + 9, x);
    y, k := FNround(fl, b1, buf, k, g);
  }

  /** The rounds of aes_encrypt. */
  method EncryptRounds(ft: array2<Col>, fl: array2<Col>, buf: array<Col>, keyLength: nat, x: Block,
                       ghost f: (Block, Block) -> Block, ghost g: (Block, Block) -> Block, ghost n: nat)
                           returns (y: Block)
    requires Computes(ft, f) && Computes(fl, g) && buf.Length == 120
    requires (keyLength == 16 || keyLength == 24 || keyLength == 32) && n == Rounds(keyLength)
    ensures y == g(Run(f, buf, n - 1, x), BlockIn(buf, 4 * n))
  {
    var b0, kp := x, 4;
    ghost var i := 0;
    if keyLength > 24 {
      b0, kp := FTwo(ft, b0, buf, kp, f, i, x);
      i := i + 2;
    }
    if keyLength > 16 {
      b0, kp := FTwo(ft, b0, buf, kp, f, i, x);
      i := i + 2;
    }
    assert i + 10 == n;
    y := TenRounds(ft, fl, b0, buf, kp, f, g, i, x);
  }

  method IFour(it: array2<Col>, b0: Block, buf: array<Col>, kp: nat,
               ghost f: (Block, Block) -> Block, ghost top: nat, ghost i: nat, ghost x: Block)
                   returns (b0': Block, k: int)
    requires ComputesInverse(it, f) && top + 4 <= buf.Length && 4 * i + 12 <= top && kp == top - 4 * i
    requires b0 == RunDown(f, buf, top, i, x)
    ensures k == kp - 16 && b0' == RunDown(f, buf, top, i + 4, x)
  {
    b0', k := ITwo(it, b0, buf, kp, f, top, i, x);
    b0', k := ITwo(it, b0', buf, k, f, top, i + 2, x);
  }

  /** The last ten rounds of aes_decrypt, after i others. */
  method TenInverseRounds(it: array2<Col>, il: array2<Col>, b: Block, buf: array<Col>, kp: nat,
                          ghost f: (Block, Block) -> Block, ghost g: (Block, Block) -> Block,
                          ghost top: nat, ghost i: nat, ghost x: Block) returns (y: Block)
    requires ComputesInverse(it, f) && ComputesInverse(il, g) && top + 4 <= buf.Length && 4 * i + 36 <= top
    requires kp == top - 4 * i && b == RunDown(f, buf, top, i, x)
    ensures y == g(RunDown(f, buf, top, i + 9, x), BlockIn(buf, top - 4 * i - 36))
  {
    var b0, k := IFour(it, b, buf, kp, f, top, i, x);
    b0, k := IFour(it, b0, buf, k, f, top, i + 4, x);
    var b1;
    b1, k := INround(it, b0, buf, k, f);
    assert b1 == RunDown(f, buf, top, i + 9, x);
    y, k := INround(il, b1, buf, k, g);
  }

  /** The rounds of aes_decrypt. */
  method DecryptRounds(it: array2<Col>, il: array2<Col>, buf: array<Col>, keyLength: nat, x: Block,
                       ghost f: (Block, Block) -> Block, ghost g: (Block, Block) -> Block, ghost n: nat)
                           returns (y: Block)
    requires ComputesInverse(it, f) && ComputesInverse(il, g) && buf.Length == 120
    requires (keyLength == 16 || keyLength == 24 || keyLength == 32) && n == Rounds(keyLength)
    ensures y == g(RunDown(f, buf, 4 * n + 56, n - 1, x), BlockIn(buf, 60))
  {
    var b0, kp := x, 60 + keyLength + 20;
    ghost var top, i := kp, 0;
    assert top == 4 * n + 56;
    if keyLength > 24 {
      b0, kp := ITwo(it, b0, buf, kp, f, top, i, x);
      i := i + 2;
    }
    if keyLength > 16 {
      b0, kp := ITwo(it, b0, buf, kp, f, top, i, x);
      i := i + 2;
    }
    assert i + 10 == n;
    y := TenInverseRounds(it, il, b0, buf, kp, f, g, top, i, x);
  }

  lemma {:induction false} RunIterates(f: (Block, Block) -> Block, buf: array<Col>, rk: seq<Block>, i: nat, x: Block)
    requires i < |rk| && KeysIn(buf, 0, rk, |rk|)
    ensures Run(f, buf, i, x) == Iterate(f, rk, i, x)
  {
    if i > 0 {
      RunIterates(f, buf, rk, i - 1, x);
      assert BlockIn(buf, 0 + 4 * i) == rk[i];
    }
  }

  lemma {:induction false} RunDownIterates(f: (Block, Block) -> Block, buf: array<Col>, dk: seq<Block>, i: nat,
                                           x: Block)
    requires 0 <= i < |dk| - 1 && KeysIn(buf, 60, dk, |dk| - 1)
    ensures RunDown(f, buf, 4 * |dk| + 52, i, x) == IterateDown(f, dk, |dk| - 1 - i, x)
  {
    if i > 0 {
      RunDownIterates(f, buf, dk, i - 1, x);
      var j := |dk| - 1 - i;
      assert BlockIn(buf, 60 + 4 * j) == dk[j];
    }
  }

  lemma {:induction false} CipherIs(rk: seq<Block>, b: Block)
    requires |rk| > 1
    ensures Cipher(rk, b) == LastRound(Iterate(FullRound, rk, |rk| - 2, AddKey(b, rk[0])), rk[|rk| - 1])
  {
  }

  lemma {:induction false} EqInvCipherRuns(dk: seq<Block>, b: Block)
    requires |dk| > 1
    ensures EqInvCipher(dk, b) == InvLastRound(IterateDown(InvFullRound, dk, 1, AddKey(b, dk[|dk| - 1])), dk[0])
  {
  }

  /** The context holds the schedule of a key. */
  ghost predicate Scheduled(buf: array<Col>, rk: seq<Block>, dk: seq<Block>)
    reads buf
  {
    buf.Length == 120 && |rk| > 1 && KeysIn(buf, 0, rk, |rk|) && |dk| == |rk| && KeysIn(buf, 60, dk, |dk| - 1)
    && dk[|dk| - 1] == rk[|rk| - 1]
  }

  /** aes_encrypt on words, for the rounds f and g that the tables compute. */
  method EncryptBlock(ft: array2<Col>, fl: array2<Col>, buf: array<Col>, keyLength: nat, b: Block,
                      ghost f: (Block, Block) -> Block, ghost g: (Block, Block) -> Block, ghost rk: seq<Block>)
      returns (y: Block)
    requires Computes(ft, f) && Computes(fl, g) && buf.Length == 120 && KeysIn(buf, 0, rk, |rk|)
    requires (keyLength == 16 || keyLength == 24 || keyLength == 32) && |rk| == Rounds(keyLength) + 1
    ensures y == g(Iterate(f, rk, |rk| - 2, AddKey(b, rk[0])), rk[|rk| - 1])
  {
    var x := AddKey(b, Block(buf[0], buf[1], buf[2], buf[3]));
    y := EncryptRounds(ft, fl, buf, keyLength, x, f, g, |rk| - 1);
    assert BlockIn(buf, 0 + 4 * 0) == rk[0];
    assert BlockIn(buf, 0 + 4 * (|rk| - 1)) == rk[|rk| - 1];
    RunIterates(f, buf, rk, |rk| - 2, x);
  }

  /** aes_decrypt on words. */
  method DecryptBlock(it: array2<Col>, il: array2<Col>, buf: array<Col>, keyLength: nat, b: Block,
                      ghost f: (Block, Block) -> Block, ghost g: (Block, Block) -> Block,
                      ghost rk: seq<Block>, ghost dk: seq<Block>) returns (y: Block)
    requires ComputesInverse(it, f) && ComputesInverse(il, g) && Scheduled(buf, rk, dk)
    requires (keyLength == 16 || keyLength == 24 || keyLength == 32) && |rk| == Rounds(keyLength) + 1
    ensures y == g(IterateDown(f, dk, 1, AddKey(b, dk[|dk| - 1])), dk[0])
  {
    assert BlockIn(buf, 0 + 4 * (|rk| - 1)) == rk[|rk| - 1];
    var x := AddKey(b, Block(buf[keyLength + 24], buf[keyLength + 25], buf[keyLength + 26], buf[keyLength + 27]));
    y := DecryptRounds(it, il, buf, keyLength, x, f, g, |rk| - 1);
    assert BlockIn(buf, 60 + 4 * 0) == dk[0];
    RunDownIterates(f, buf, dk, |dk| - 2, x);
  }

  /** Deciphering undoes enciphering, for every key of 16, 24 or 32 bytes and every block. */
  lemma {:induction false} RoundTrip(key: seq<Byte>, b: Block)
    requires GoodKey(key)
    ensures EqInvCipher(DecKeys(UnmixCol, RoundKeys(key)), Cipher(RoundKeys(key), b)) == b
  {
    var rk := RoundKeys(key);
    DecKeysAre(rk);
    EqInvCipherIs(rk, DecKeys(UnmixCol, rk), Cipher(rk, b));
    InvCipherUndoes(rk, b);
  }

  lemma {:induction false} ScheduleBlocks(key: seq<Byte>, w: seq<Col>)
    requires GoodKey(key) && w == Words(key, |w|) && |w| == 64
    ensures forall i :: 0 <= i <= Rounds(|key|) ==> RoundKeys(key)[i] == BlockAt(w, 4 * i)
  {
    forall i | 0 <= i <= Rounds(|key|) ensures RoundKeys(key)[i] == BlockAt(w, 4 * i) {
      EncryptionBlock(key, w, i);
    }
  }

  lemma {:induction false} EncryptionBlocks(buf: array<Col>, w: seq<Col>, rk: seq<Block>, keyLength: nat)
    requires EncryptionKeysIn(buf, w, keyLength) && 4 * |rk| == keyLength + 28
    requires forall i :: 0 <= i < |rk| ==> rk[i] == BlockAt(w, 4 * i)
    ensures KeysIn(buf, 0, rk, |rk|)
  {
    forall i | 0 <= i < |rk| ensures BlockIn(buf, 0 + 4 * i) == rk[i] {
      assert rk[i] == BlockAt(w, 4 * i);
    }
  }

  method FillSchedule(fl: array2<Col>, rco: array<Col>, buf: array<Col>, key: seq<Byte>,
                      ghost w: seq<Col>, ghost rk: seq<Block>, ghost u: Col -> Col)
    requires LastTable(fl, 256) && RcoOk(rco) && rco != buf && buf.Length == 120 && GoodKey(key) && Unmixes(u)
    requires w == Words(key, 64) && |rk| == Rounds(|key|) + 1
    requires forall i :: 0 <= i < |rk| ==> rk[i] == BlockAt(w, 4 * i)
    modifies buf
    ensures Scheduled(buf, rk, DecKeys(u, rk))
  {
    Expand(fl, rco, buf, key, w);
    ghost var d := DWords(u, w, |key| + 24);
    MakeDecryptionKeys(buf, |key|, u, w, d);
    EncryptionBlocks(buf, w, rk, |key|);
    DecryptionBlocks(buf, u, w, d, rk, DecKeys(u, rk));
  }

  /** The schedule aes_set_key computes for a key of an accepted length. */
  method Schedule(fl: array2<Col>, rco: array<Col>, buf: array<Col>, key: seq<Byte>)
    requires LastTable(fl, 256) && RcoOk(rco) && rco != buf && buf.Length == 120 && GoodKey(key)
    modifies buf
    ensures Scheduled(buf, RoundKeys(key), DecKeys(UnmixCol, RoundKeys(key)))
  {
    ghost var w := Words(key, 64);
    ScheduleBlocks(key, w);
    FillSchedule(fl, rco, buf, key, w, RoundKeys(key), UnmixCol);
  }

  class AesCtx {
    var keyLength: nat
    const buf: array<Col>

    constructor ()
      ensures buf.Length == 120 && fresh(buf)
    {
      keyLength := 0;
      buf := new Col[120];
    }

    /** The context holds these round keys. */
    ghost predicate Keyed(rk: seq<Block>, dk: seq<Block>)
      reads this, buf
    {
      (keyLength == 16 || keyLength == 24 || keyLength == 32) && |rk| == Rounds(keyLength) + 1 && Scheduled(buf, rk, dk)
    }

    /** aes_set_key */
    method SetKey(fl: array2<Col>, rco: array<Col>, key: seq<Byte>) returns (err: int)
      requires LastTable(fl, 256) && RcoOk(rco) && rco != buf && buf.Length == 120 && 16 <= |key| <= 32
      modifies this`keyLength, buf
      ensures |key| % 8 != 0 ==> err == -EINVAL && keyLength == old(keyLength) && buf[..] == old(buf[..])
      ensures |key| % 8 == 0 ==>
              err == 0 && keyLength == |key| && Keyed(RoundKeys(key), DecKeys(UnmixCol, RoundKeys(key)))
    {
      if |key| % 8 != 0 {
        return -EINVAL;
      }
      keyLength := |key|;
      Schedule(fl, rco, buf, key);
      err := 0;
    }

    /** aes_encrypt; the two buffers may be the same. */
    method Encrypt(ft: array2<Col>, fl: array2<Col>, out: array<Byte>, input: array<Byte>,
                   ghost rk: seq<Block>, ghost dk: seq<Block>)
      requires RoundTable(ft, 256) && LastTable(fl, 256) && Keyed(rk, dk) && out.Length == input.Length == 16
      modifies out
      ensures BlockOf(out[..]) == Cipher(rk, BlockOf(old(input[..])))
    {
      ForwardRounds(ft, fl, FullRound, LastRound);
      var b := BlockOf(input[..]);
      CipherIs(rk, b);
      var y := EncryptBlock(ft, fl, buf, keyLength, b, FullRound, LastRound, rk);
      StoreBlock(out, y);
    }

    /** aes_decrypt */
    method Decrypt(it: array2<Col>, il: array2<Col>, out: array<Byte>, input: array<Byte>,
                   ghost rk: seq<Block>, ghost dk: seq<Block>)
      requires InvRoundTable(it, 256) && InvLastTable(il, 256) && Keyed(rk, dk) && out.Length == input.Length == 16
      modifies out
      ensures BlockOf(out[..]) == EqInvCipher(dk, BlockOf(old(input[..])))
    {
      InverseRounds(it, il);
      var b := BlockOf(input[..]);
      EqInvCipherRuns(dk, b);
      var y := DecryptBlock(it, il, buf, keyLength, b, InvFullRound, InvLastRound, rk, dk);
      StoreBlock(out, y);
    }
  }
}
