// Iterated hashes that work in blocks of 64 bytes: what MD5 and SHA-1 compute, whatever their transform.
module Digest {
  type byte = bv8

  const BLOCK: nat := 64

  const TWO32: nat := 0x1_0000_0000

  const TWO64: nat := 0x1_0000_0000_0000_0000

  /** The transform over whole blocks; what does not fill a block is left. */
  function Fold<H>(t: (H, seq<byte>) -> H, h: H, s: seq<byte>): H
    decreases |s|
  {
    if |s| < BLOCK then h else Fold(t, t(h, s[..BLOCK]), s[BLOCK..])
  }

  /** The part of s that does not fill a block. */
  function Tail(s: seq<byte>): (r: seq<byte>)
    ensures |r| == |s| % BLOCK
    decreases |s|
  {
    if |s| < BLOCK then s else Tail(s[BLOCK..])
  }

  function Zeros(n: nat): (z: seq<byte>)
    ensures |z| == n
  {
    seq(n, _ => 0)
  }

  /** How many zero bytes bring n bytes and the marker to 56 modulo 64. */
  function ZeroCount(n: nat): nat {
    var r := n % BLOCK;
    if r < 56 then 55 - r else 119 - r
  }

  /** Padding: a marker, zeros, and the length field. */
  function Padding(n: nat, field: seq<byte>): seq<byte> { [0x80] + Zeros(ZeroCount(n)) + field }

  /** The digest of m, as the state the transform ends in. */
  function DigestOf<H>(t: (H, seq<byte>) -> H, h: H, m: seq<byte>, field: seq<byte>): H {
    Fold(t, h, m + Padding(|m|, field))
  }

  lemma {:induction false} PaddedFits(n: nat, field: seq<byte>)
    requires |field| == 8
    ensures (n + |Padding(n, field)|) % BLOCK == 0
  {
    var r, q := n % BLOCK, n / BLOCK;
    assert n == q * BLOCK + r;
    if r < 56 {
      assert n + |Padding(n, field)| == (q + 1) * BLOCK;
    } else {
      assert n + |Padding(n, field)| == (q + 2) * BLOCK;
    }
  }

  /** Going on from what is left over is hashing the whole. */
  lemma {:induction false} FoldOn<H>(t: (H, seq<byte>) -> H, h: H, a: seq<byte>, b: seq<byte>)
    ensures Fold(t, h, a + b) == Fold(t, Fold(t, h, a), Tail(a) + b) && Tail(a + b) == Tail(Tail(a) + b)
    decreases |a|
  {
    if |a| >= BLOCK {
      var c := a + b;
      assert c[..BLOCK] == a[..BLOCK] && c[BLOCK..] == a[BLOCK..] + b;
      FoldOn(t, t(h, a[..BLOCK]), a[BLOCK..], b);
    }
  }

  lemma {:induction false} OneBlock<H>(t: (H, seq<byte>) -> H, h: H, a: seq<byte>)
    requires |a| == BLOCK
    ensures Fold(t, h, a) == t(h, a) && Tail(a) == []
  {
    assert a[..BLOCK] == a && a[BLOCK..] == [];
  }

  /** A whole block first, then the rest. */
  lemma {:induction false} BlockFirst<H>(t: (H, seq<byte>) -> H, h: H, a: seq<byte>, b: seq<byte>)
    requires |a| == BLOCK
    ensures Fold(t, h, a + b) == Fold(t, t(h, a), b) && Tail(a + b) == Tail(b)
  {
    assert (a + b)[..BLOCK] == a && (a + b)[BLOCK..] == b;
  }

  lemma {:induction false} Short<H>(t: (H, seq<byte>) -> H, h: H, a: seq<byte>)
    requires |a| < BLOCK
    ensures Fold(t, h, a) == h && Tail(a) == a
  {
  }

  // ---------------------------------------------------------------- length fields

  /** n as bytes, least significant first. */
  function LittleEndian(n: nat, size: nat): (s: seq<byte>)
    ensures |s| == size
  {
    if size == 0 then [] else [(n % 256) as byte] + LittleEndian(n / 256, size - 1)
  }

  /** n as bytes, most significant first. */
  function BigEndian(n: nat, size: nat): (s: seq<byte>)
    ensures |s| == size
  {
    if size == 0 then [] else BigEndian(n / 256, size - 1) + [(n % 256) as byte]
  }

  function Pow256(k: nat): nat { if k == 0 then 1 else 256 * Pow256(k - 1) }

  lemma {:induction false} TimesPower(q: nat, p: nat)
    ensures q * (256 * p) == 256 * (q * p)
  {
  }

  lemma {:induction false} LowByte(r: nat, x: nat)
    ensures (r + 256 * x) % 256 == r % 256 && (r + 256 * x) / 256 == r / 256 + x
  {
  }

  lemma {:induction false} LittleEndianStep(n: nat, size: nat)
    requires size > 0
    ensures LittleEndian(n, size) == [(n % 256) as byte] + LittleEndian(n / 256, size - 1)
  {
  }

  lemma {:induction false} Regroup(x: byte, s: seq<byte>, t: seq<byte>)
    ensures [x] + (s + t) == ([x] + s) + t
  {
  }

  lemma {:induction false} LittleEndianJoin(r: nat, q: nat, a: nat, b: nat)
    requires r < Pow256(a)
    ensures LittleEndian(r + q * Pow256(a), a + b) == LittleEndian(r, a) + LittleEndian(q, b)
  {
    if a > 0 {
      var p := Pow256(a - 1);
      var n, x := r + q * Pow256(a), q * p;
      TimesPower(q, p);
      LowByte(r, x);
      LittleEndianJoin(r / 256, q, a - 1, b);
      LittleEndianStep(n, a + b);
      LittleEndianStep(r, a);
      Regroup((r % 256) as byte, LittleEndian(r / 256, a - 1), LittleEndian(q, b));
    }
  }

  /** The number of bits, modulo 2 to the 64. */
  function Bits(n: nat): nat { (8 * n) % TWO64 }

  lemma {:induction false} Multiples(a: nat, b: nat, m: nat)
    requires a <= b
    ensures a * m <= b * m
  {
    if a < b { Multiples(a, b - 1, m); }
  }

  lemma {:induction false} DivUnique(a: nat, m: nat, q: nat, r: nat)
    requires m > 0 && a == q * m + r && r < m
    ensures a / m == q && a % m == r
  {
    var p := a / m;
    assert a == p * m + a % m;
    if p > q { Multiples(q + 1, p, m); } else if p < q { Multiples(p + 1, q, m); }
  }

  lemma {:induction false} ModStep(a: nat, m: nat)
    requires m > 0
    ensures (a + m) % m == a % m
  {
    var q, r := a / m, a % m;
    assert a + m == (q + 1) * m + r;
    DivUnique(a + m, m, q + 1, r);
  }

  lemma {:induction false} ModAdd(a: nat, q: nat, m: nat)
    requires m > 0
    ensures (a + q * m) % m == a % m
  {
    if q > 0 {
      ModAdd(a, q - 1, m);
      assert a + q * m == (a + (q - 1) * m) + m;
      ModStep(a + (q - 1) * m, m);
    }
  }

  /** A 64-bit byte count shifted left by three is the number of bits modulo 2 to the 64. */
  lemma {:induction false} ShiftedCount(n: nat)
    ensures (8 * (n % TWO64)) % TWO64 == Bits(n)
  {
    var q := n / TWO64;
    assert n == q * TWO64 + n % TWO64;
    ModAdd(8 * (n % TWO64), 8 * q, TWO64);
  }

  /** The low bits of the 64-bit count tell how much is in the buffer. */
  lemma {:induction false} CountMod(n: nat)
    ensures (n % TWO64) % 64 == n % 64
  {
    assert n == (n / TWO64) * TWO64 + n % TWO64;
    ModAdd(n % TWO64, (n / TWO64) * (TWO64 / 64), 64);
    assert (n / TWO64) * (TWO64 / 64) * 64 == (n / TWO64) * TWO64;
  }

  lemma {:induction false} CountAdd(n: nat, len: nat)
    ensures (n % TWO64 + len) % TWO64 == (n + len) % TWO64
  {
    assert n + len == (n % TWO64 + len) + (n / TWO64) * TWO64;
    ModAdd(n % TWO64 + len, n / TWO64, TWO64);
  }

  /** The message in pieces, one update for each. */
  ghost function Joined(pieces: seq<seq<byte>>, k: nat): seq<byte>
    requires k <= |pieces|
  {
    if k == 0 then [] else Joined(pieces, k - 1) + pieces[k - 1]
  }
}
