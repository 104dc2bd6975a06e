// gen_tabs: the loops that fill aes.c's tables, and what the tables then hold.
module AesTables {
  import opened Gf256
  import opened AesSpec
  import opened AesWords
  import opened AesRounds

  // ---------------------------------------------------------------- power and logarithm tables

  ghost predicate PowOk(pow: seq<bv8>) {
    |pow| == 256 && forall i :: 0 <= i < 256 ==> pow[i] == Power(i)
  }

  ghost predicate LogOk(log: seq<nat>) {
    |log| == 256 && forall x: bv8 {:trigger log[x as int]} :: x != 0 ==> log[x as int] == Log(x)
  }

  lemma {:induction false} AsIntInjective(x: bv8, y: bv8)
    requires x as int == y as int
    ensures x == y
  {
  }

  lemma {:induction false} DifferentSlots(x: bv8, y: bv8)
    requires x != y
    ensures x as int != y as int
  {
    if x as int == y as int { AsIntInjective(x, y); }
  }

  /** Where the logarithm of the n-th power is kept. */
  ghost function Slot(n: nat): (k: nat)
    ensures k < 256
  {
    Power(n) as int
  }

  /** The entries of the logarithm table for the powers 1 to n - 1. */
  ghost predicate LogsTo(log: seq<nat>, n: nat) {
    |log| == 256 && forall j: nat {:trigger Slot(j)} :: 0 < j < n && j < 255 ==> log[Slot(j)] == j
  }

  lemma {:induction false} SlotsDiffer(m: nat, n: nat)
    requires m < n && n - m < 255
    ensures Slot(m) != Slot(n)
  {
    PowersDiffer(m, n);
    DifferentSlots(Power(m), Power(n));
  }

  lemma {:induction false} LogsStep(log: seq<nat>, n: nat, slot: nat)
    requires LogsTo(log, n) && n <= 255 && slot == Slot(n)
    ensures LogsTo(log[slot := n], n + 1)
  {
    forall j: nat | 0 < j < n + 1 && j < 255 ensures log[slot := n][Slot(j)] == j {
      if j < n { SlotsDiffer(j, n); }
    }
  }

  lemma {:induction false} LogsDone(log: seq<nat>)
    requires LogsTo(log, 256)
    ensures LogOk(log[1 := 0])
  {
    Order255();
    forall x: bv8 | x != 0 ensures log[1 := 0][x as int] == Log(x) {
      var n := Log(x);
      if n > 0 {
        assert log[Slot(n)] == n;
        DifferentSlots(x, 1);
      } else {
        assert x == 1;
      }
    }
  }

  /** The first loop of gen_tabs. */
  method FillPowers(pow: array<bv8>, log: array<nat>)
    requires pow.Length == 256 && log.Length == 256 && pow as object != log as object
    modifies pow, log
    ensures PowOk(pow[..]) && LogOk(log[..])
  {
    var p: bv8 := 1;
    for i := 0 to 256
      invariant p == Power(i)
      invariant forall j :: 0 <= j < i ==> pow[j] == Power(j)
      invariant LogsTo(log[..], i)
    {
      ghost var before := log[..];
      pow[i] := p;
      log[p as int] := i;
      assert log[..] == before[p as int := i];
      LogsStep(before, i, p as int);
      p := p ^ (p << 1) ^ (if p & 0x80 != 0 then 0x1b else 0);
    }
    ghost var filled := log[..];
    log[1] := 0;
    assert log[..] == filled[1 := 0];
    LogsDone(filled);
  }

  // ---------------------------------------------------------------- multiplication through the tables

  /** f_mult: the sum of the logarithms is kept in eight bits, with the carry added back in. */
  function FMult(pow: seq<bv8>, log: seq<nat>, a: bv8, b: bv8): bv8
    requires |pow| == 256 && |log| == 256 && log[a as int] < 256 && log[b as int] < 256
  {
    var aa := log[a as int];
    var cc := (aa + log[b as int]) % 256;
    pow[if cc < aa then cc + 1 else cc]
  }

  lemma {:induction false} PowerPeriod(n: nat)
    ensures Power(n + 255) == Power(n)
  {
    if n == 0 { Order255(); } else { PowerPeriod(n - 1); }
  }

  /** Addition of logarithms modulo 256, with the carry added back, is addition modulo 255. */
  lemma {:induction false} CarryBack(x: nat, y: nat)
    requires x < 255 && y < 255
    ensures var c := (x + y) % 256; (if c < x then c + 1 else c) == if x + y >= 256 then x + y - 255 else x + y
  {
  }

  lemma {:induction false} FMultPower(pow: seq<bv8>, log: seq<nat>, a: bv8, b: bv8)
    requires PowOk(pow) && LogOk(log) && a != 0 && b != 0
    ensures FMult(pow, log, a, b) == Power(Log(a) + Log(b))
  {
    var x, y := Log(a), Log(b);
    assert log[a as int] == x && log[b as int] == y;
    CarryBack(x, y);
    if x + y >= 256 { PowerPeriod(x + y - 255); }
  }

  /** f_mult multiplies in the field. */
  lemma {:induction false} FMultIs(pow: seq<bv8>, log: seq<nat>, a: bv8, b: bv8)
    requires PowOk(pow) && LogOk(log) && a != 0 && b != 0
    ensures ByteOf(FMult(pow, log, a, b)) == Mul(ByteOf(b), ByteOf(a))
  {
    FMultPower(pow, log, a, b);
    PowerProduct(Log(b), Log(a));
  }

  /** ff_mult */
  function FFMult(pow: seq<bv8>, log: seq<nat>, a: bv8, b: bv8): bv8
    requires |pow| == 256 && |log| == 256
    requires a != 0 && b != 0 ==> log[a as int] < 256 && log[b as int] < 256
  {
    if a != 0 && b != 0 then FMult(pow, log, a, b) else 0
  }

  lemma {:induction false} MulZero(bits: seq<bool>)
    ensures MulBits(ZERO, bits) == ZERO
    decreases |bits|
  {
    if bits != [] {
      assert Xtime(ZERO) == ZERO;
      MulZero(bits[1..]);
      XorZero(ZERO);
    }
  }

  lemma {:induction false} FFMultIs(pow: seq<bv8>, log: seq<nat>, a: bv8, b: bv8)
    requires PowOk(pow) && LogOk(log) && a != 0
    ensures ByteOf(FFMult(pow, log, a, b)) == Mul(ByteOf(b), ByteOf(a))
  {
    if b != 0 {
      FMultIs(pow, log, a, b);
    } else {
      assert ByteOf(0) == ZERO;
      MulZero(Bits(ByteOf(a)));
    }
  }

  // ---------------------------------------------------------------- the S-box and its inverse

  ghost function ByteNo(k: nat): bv8
    requires k < 256
  {
    k as bv8
  }

  lemma {:induction false} ByteAfter(x: bv8)
    requires x < 255
    ensures (x + 1) as int == x as int + 1
  {
  }

  lemma {:induction false} BelowAsInt(x: bv8)
    requires x as int < 255
    ensures x < 255
  {
  }

  /** The byte reached by counting up from zero. */
  ghost function CountUp(k: nat): bv8 { if k == 0 then 0 else CountUp(k - 1) + 1 }

  lemma {:induction false} CountUpIs(k: nat)
    requires k < 256
    ensures CountUp(k) as int == k
  {
    if k > 0 {
      CountUpIs(k - 1);
      BelowAsInt(CountUp(k - 1));
      ByteAfter(CountUp(k - 1));
    }
  }

  lemma {:induction false} NoOfByte(x: bv8)
    ensures x as int < 256 && ByteNo(x as int) == x
  {
  }

  lemma {:induction false} AsIntAsByte(k: nat)
    requires k < 256
    ensures (k as bv8) as int == k
  {
    CountUpIs(k);
    NoOfByte(CountUp(k));
  }

  lemma {:induction false} ByteNoIs(k: nat)
    requires k < 256
    ensures ByteNo(k) as int == k
  {
    AsIntAsByte(k);
  }

  lemma {:induction false} ByteNosDiffer(j: nat, k: nat)
    requires j < 256 && k < 256 && j != k
    ensures ByteNo(j) != ByteNo(k)
  {
    ByteNoIs(j);
    ByteNoIs(k);
  }

  ghost predicate SboxTo(sbx: seq<bv8>, n: nat) {
    |sbx| == 256 && n <= 256 && forall k :: 0 <= k < n ==> sbx[k] == SubByte(ByteNo(k))
  }

  ghost predicate IsbOk(isb: seq<bv8>) {
    |isb| == 256 && forall k :: 0 <= k < 256 ==> isb[k] == InvSubByte(ByteNo(k))
  }

  /** Where the inverse of entry k is kept. */
  ghost function SubSlot(k: nat): (s: nat)
    requires k < 256
    ensures s < 256
  {
    SubByte(ByteNo(k)) as int
  }

  ghost predicate IsbTo(isb: seq<bv8>, n: nat) {
    |isb| == 256 && n <= 256 && forall k :: 0 <= k < n ==> isb[SubSlot(k)] == ByteNo(k)
  }

  lemma {:induction false} SubSlotsDiffer(j: nat, k: nat)
    requires j < 256 && k < 256 && j != k
    ensures SubSlot(j) != SubSlot(k)
  {
    ByteNosDiffer(j, k);
    SubUndone(ByteNo(j));
    SubUndone(ByteNo(k));
    DifferentSlots(SubByte(ByteNo(j)), SubByte(ByteNo(k)));
  }

  lemma {:induction false} IsbStep(isb: seq<bv8>, n: nat, slot: nat, x: bv8)
    requires n < 256 && IsbTo(isb, n) && slot == SubSlot(n) && x == ByteNo(n)
    ensures IsbTo(isb[slot := x], n + 1)
  {
    forall k | 0 <= k < n + 1 ensures isb[slot := x][SubSlot(k)] == ByteNo(k) {
      if k < n { SubSlotsDiffer(k, n); }
    }
  }

  lemma {:induction false} IsbDone(isb: seq<bv8>)
    requires IsbTo(isb, 256)
    ensures IsbOk(isb)
  {
    forall k | 0 <= k < 256 ensures isb[k] == InvSubByte(ByteNo(k)) {
      var y := InvSubByte(ByteNo(k));
      SubOnto(ByteNo(k));
      NoOfByte(y);
      ByteNoIs(k);
      assert isb[SubSlot(y as int)] == ByteNo(y as int);
    }
  }

  lemma {:induction false} InverseLookup(pow: seq<bv8>, log: seq<nat>, k: nat)
    requires PowOk(pow) && LogOk(log) && k < 256
    ensures k > 0 ==> log[k] <= 255 && pow[255 - log[k]] == Inverse(ByteNo(k))
    ensures k == 0 ==> Inverse(ByteNo(k)) == 0
  {
    ByteNoIs(k);
    if k > 0 {
      assert ByteNo(k) != 0;
      assert log[ByteNo(k) as int] == Log(ByteNo(k));
    }
  }

  /** Entry i of the S-box: the inverse of i, and the affine step. */
  method SboxEntry(pow: array<bv8>, log: array<nat>, i: nat) returns (p: bv8)
    requires pow.Length == log.Length == 256 && PowOk(pow[..]) && LogOk(log[..]) && i < 256
    ensures p == SubByte(ByteNo(i))
  {
    InverseLookup(pow[..], log[..], i);
    p := if i != 0 then pow[255 - log[i]] else 0;
    var q := ((p >> 7) | (p << 1)) ^ ((p >> 6) | (p << 2));
    p := p ^ (0x63 ^ q ^ ((q >> 6) | (q << 2)));
  }

  /** The entry is stored, and i as the inverse entry. */
  method StoreEntry(sbx: array<bv8>, isb: array<bv8>, i: nat, p: bv8)
    requires sbx.Length == isb.Length == 256 && sbx != isb && i < 256 && p == SubByte(ByteNo(i))
    requires SboxTo(sbx[..], i) && IsbTo(isb[..], i)
    modifies sbx, isb
    ensures SboxTo(sbx[..], i + 1) && IsbTo(isb[..], i + 1)
  {
    ghost var sbx0, isb0 := sbx[..], isb[..];
    NoOfByte(p);
    sbx[i] := p;
    isb[p as int] := i as bv8;
    assert sbx[..] == sbx0[i := p];
    assert isb[..] == isb0[p as int := i as bv8];
    IsbStep(isb0, i, p as int, i as bv8);
  }

  /** The third loop of gen_tabs. */
  method FillSboxes(pow: array<bv8>, log: array<nat>, sbx: array<bv8>, isb: array<bv8>)
    requires pow.Length == log.Length == sbx.Length == isb.Length == 256
    requires sbx != isb && sbx != pow && isb != pow && log as object != sbx as object && log as object != isb as object
    requires PowOk(pow[..]) && LogOk(log[..])
    modifies sbx, isb
    ensures SboxTo(sbx[..], 256) && IsbOk(isb[..])
  {
    for i := 0 to 256
      invariant pow[..] == old(pow[..]) && log[..] == old(log[..])
      invariant SboxTo(sbx[..], i) && IsbTo(isb[..], i)
    {
      var p := SboxEntry(pow, log, i);
      StoreEntry(sbx, isb, i, p);
    }
    IsbDone(isb[..]);
  }

  // ---------------------------------------------------------------- the round tables

  /** Column i of a table holds `c` and its three rotations. */
  ghost predicate Holds(tab: array2<Col>, i: nat, c: Col)
    reads tab
    requires tab.Length0 == 4 && tab.Length1 == 256 && i < 256
  {
    && tab[0, i] == c
    && tab[1, i] == RotDown(c)
    && tab[2, i] == RotDown(RotDown(c))
    && tab[3, i] == RotDown(RotDown(RotDown(c)))
  }

  method Store(tab: array2<Col>, i: nat, c: Col)
    requires tab.Length0 == 4 && tab.Length1 == 256 && i < 256
    modifies tab
    ensures Holds(tab, i, c)
    ensures forall k, j :: 0 <= k < 4 && 0 <= j < 256 && j != i ==> tab[k, j] == old(tab[k, j])
  {
    tab[0, i] := c;
    tab[1, i] := RotDown(c);
    tab[2, i] := RotDown(RotDown(c));
    tab[3, i] := RotDown(RotDown(RotDown(c)));
  }

  ghost function SubNo(k: nat): Byte
    requires k < 256
  {
    ByteOf(SubByte(ByteNo(k)))
  }

  ghost function InvSubNo(k: nat): Byte
    requires k < 256
  {
    ByteOf(InvSubByte(ByteNo(k)))
  }

  ghost predicate LastTable(tab: array2<Col>, n: nat)
    reads tab
  {
    tab.Length0 == 4 && tab.Length1 == 256 && n <= 256 && forall k :: 0 <= k < n ==> Holds(tab, k, LastPart(SubNo(k)))
  }

  ghost predicate RoundTable(tab: array2<Col>, n: nat)
    reads tab
  {
    tab.Length0 == 4 && tab.Length1 == 256 && n <= 256 && forall k :: 0 <= k < n ==> Holds(tab, k, MixPart(SubNo(k)))
  }

  ghost predicate InvLastTable(tab: array2<Col>, n: nat)
    reads tab
  {
    tab.Length0 == 4 && tab.Length1 == 256 && n <= 256 && forall k ::
        0 <= k < n ==> Holds(tab, k, LastPart(InvSubNo(k)))
  }

  ghost predicate InvRoundTable(tab: array2<Col>, n: nat)
    reads tab
  {
    tab.Length0 == 4 && tab.Length1 == 256 && n <= 256 && forall k ::
        0 <= k < n ==> Holds(tab, k, UnmixPart(InvSubNo(k)))
  }

  /** The word stored for a round. */
  function MixWord(pow: seq<bv8>, log: seq<nat>, p: bv8): Col
    requires |pow| == 256 && |log| == 256 && (p != 0 ==> log[p as int] < 256) && log[2] < 256 && log[3] < 256
  {
    Col(ByteOf(FFMult(pow, log, 2, p)), ByteOf(p), ByteOf(p), ByteOf(FFMult(pow, log, 3, p)))
  }

  lemma {:induction false} SmallLogs(log: seq<nat>, p: bv8)
    requires LogOk(log)
    ensures p != 0 ==> log[p as int] < 256
    ensures log[2] < 256 && log[3] < 256 && log[9] < 256 && log[11] < 256 && log[13] < 256 && log[14] < 256
  {
    assert log[2 as bv8 as int] == Log(2);
    assert log[3 as bv8 as int] == Log(3);
    assert log[9 as bv8 as int] == Log(9);
    assert log[11 as bv8 as int] == Log(11);
    assert log[13 as bv8 as int] == Log(13);
    assert log[14 as bv8 as int] == Log(14);
  }

  lemma {:induction false} ForwardEntry(pow: seq<bv8>, log: seq<nat>, p: bv8)
    requires PowOk(pow) && LogOk(log)
    ensures p != 0 ==> log[p as int] < 256
    ensures log[2] < 256 && log[3] < 256
    ensures MixWord(pow, log, p) == MixPart(ByteOf(p))
  {
    SmallLogs(log, p);
    FFMultIs(pow, log, 2, p);
    FFMultIs(pow, log, 3, p);
    TableMultiples(ByteOf(p));
  }

  /** The word stored for an inverse round. */
  function InvWord(pow: seq<bv8>, log: seq<nat>, p: bv8): Col
    requires |pow| == 256 && |log| == 256 && (p != 0 ==> log[p as int] < 256)
    requires log[9] < 256 && log[11] < 256 && log[13] < 256 && log[14] < 256
  {
    Col(ByteOf(FFMult(pow, log, 14, p)), ByteOf(FFMult(pow, log, 9, p)),
        ByteOf(FFMult(pow, log, 13, p)), ByteOf(FFMult(pow, log, 11, p)))
  }

  lemma {:induction false} InverseEntry(pow: seq<bv8>, log: seq<nat>, p: bv8)
    requires PowOk(pow) && LogOk(log)
    ensures p != 0 ==> log[p as int] < 256
    ensures log[9] < 256 && log[11] < 256 && log[13] < 256 && log[14] < 256
    ensures InvWord(pow, log, p) == UnmixPart(ByteOf(p))
  {
    SmallLogs(log, p);
    FFMultIs(pow, log, 14, p);
    FFMultIs(pow, log, 9, p);
    FFMultIs(pow, log, 13, p);
    FFMultIs(pow, log, 11, p);
    TableMultiples(ByteOf(p));
  }

  /** The forward half of gen_tabs' last loop. */
  method FillForward(pow: array<bv8>, log: array<nat>, sbx: array<bv8>, fl: array2<Col>, ft: array2<Col>)
    requires pow.Length == log.Length == sbx.Length == 256 && fl != ft
    requires fl.Length0 == ft.Length0 == 4 && fl.Length1 == ft.Length1 == 256
    requires PowOk(pow[..]) && LogOk(log[..]) && SboxTo(sbx[..], 256)
    modifies fl, ft
    ensures LastTable(fl, 256) && RoundTable(ft, 256)
  {
    for i := 0 to 256
      invariant LastTable(fl, i) && RoundTable(ft, i)
    {
      var p := sbx[i];
      Store(fl, i, LastPart(ByteOf(p)));
      ForwardEntry(pow[..], log[..], p);
      Store(ft, i, MixWord(pow[..], log[..], p));
    }
  }

  method InverseWord(pow: array<bv8>, log: array<nat>, p: bv8) returns (c: Col)
    requires pow.Length == log.Length == 256 && PowOk(pow[..]) && LogOk(log[..])
    ensures c == UnmixPart(ByteOf(p))
  {
    InverseEntry(pow[..], log[..], p);
    c := InvWord(pow[..], log[..], p);
  }

  method AddInverse(it: array2<Col>, i: nat, c: Col)
    requires i < 256 && c == UnmixPart(InvSubNo(i)) && InvRoundTable(it, i)
    modifies it
    ensures InvRoundTable(it, i + 1)
  {
    Store(it, i, c);
  }

  /** The inverse half of gen_tabs' last loop. */
  method FillInverse(pow: array<bv8>, log: array<nat>, isb: array<bv8>, il: array2<Col>, it: array2<Col>)
    requires pow.Length == log.Length == isb.Length == 256 && il != it
    requires il.Length0 == it.Length0 == 4 && il.Length1 == it.Length1 == 256
    requires PowOk(pow[..]) && LogOk(log[..]) && IsbOk(isb[..])
    modifies il, it
    ensures InvLastTable(il, 256) && InvRoundTable(it, 256)
  {
    for i := 0 to 256
      invariant InvLastTable(il, i) && InvRoundTable(it, i)
    {
      var p := isb[i];
      Store(il, i, LastPart(ByteOf(p)));
      var t := InverseWord(pow, log, p);
      AddInverse(it, i, t);
    }
  }
}
