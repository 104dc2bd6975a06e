// Cipher block chaining: cbc.c in place and out of place, one walk step after the other, and the older forms of
// cipher.c. A buffer is an array of blocks of any kind; bytes that do not fill a block are only counted.
module Cbc {
  /** What exclusive or is needed for. */
  ghost predicate XorLaws<B(!new)>(xor: (B, B) -> B) {
    (forall a, b :: xor(a, b) == xor(b, a)) && (forall a, b :: xor(xor(a, b), b) == a)
  }

  // ---------------------------------------------------------------- section 6.2 of NIST SP 800-38A

  function Enc<B>(e: B -> B, xor: (B, B) -> B, iv: B, ps: seq<B>): (cs: seq<B>)
    ensures |cs| == |ps|
  {
    if |ps| == 0 then []
    else
      var c := e(xor(ps[0], iv));
      [c] + Enc(e, xor, c, ps[1..])
  }

  function Dec<B>(d: B -> B, xor: (B, B) -> B, iv: B, cs: seq<B>): (ps: seq<B>)
    ensures |ps| == |cs|
  {
    if |cs| == 0 then [] else [xor(d(cs[0]), iv)] + Dec(d, xor, cs[0], cs[1..])
  }

  /** The chaining value after the blocks cs. */
  function Carry<B>(iv: B, cs: seq<B>): B { if |cs| == 0 then iv else cs[|cs| - 1] }

  lemma {:induction false} EncAt<B>(e: B -> B, xor: (B, B) -> B, iv: B, ps: seq<B>, k: nat)
    requires k < |ps|
    ensures var cs := Enc(e, xor, iv, ps); cs[k] == e(xor(ps[k], if k == 0 then iv else cs[k - 1]))
  {
    if k > 0 { EncAt(e, xor, Enc(e, xor, iv, ps)[0], ps[1..], k - 1); }
  }

  lemma {:induction false} DecAt<B>(d: B -> B, xor: (B, B) -> B, iv: B, cs: seq<B>, k: nat)
    requires k < |cs|
    ensures Dec(d, xor, iv, cs)[k] == xor(d(cs[k]), if k == 0 then iv else cs[k - 1])
  {
    if k > 0 { DecAt(d, xor, cs[0], cs[1..], k - 1); }
  }

  lemma {:induction false} CarryConcat<B>(iv: B, a: seq<B>, b: seq<B>)
    ensures Carry(Carry(iv, a), b) == Carry(iv, a + b)
  {
    if |b| == 0 { assert a + b == a; }
  }

  /** Enciphering in two parts, carrying the last block over, is enciphering the whole. */
  lemma {:induction false} EncSplit<B>(e: B -> B, xor: (B, B) -> B, iv: B, a: seq<B>, b: seq<B>)
    ensures Enc(e, xor, iv, a + b) == Enc(e, xor, iv, a) + Enc(e, xor, Carry(iv, Enc(e, xor, iv, a)), b)
  {
    if |a| == 0 {
      assert a + b == b;
    } else {
      var c := e(xor(a[0], iv));
      assert (a + b)[0] == a[0] && (a + b)[1..] == a[1..] + b;
      EncSplit(e, xor, c, a[1..], b);
      CarryConcat(iv, [c], Enc(e, xor, c, a[1..]));
    }
  }

  lemma {:induction false} DecSplit<B>(d: B -> B, xor: (B, B) -> B, iv: B, a: seq<B>, b: seq<B>)
    ensures Dec(d, xor, iv, a + b) == Dec(d, xor, iv, a) + Dec(d, xor, Carry(iv, a), b)
  {
    if |a| == 0 {
      assert a + b == b;
    } else {
      assert (a + b)[0] == a[0] && (a + b)[1..] == a[1..] + b;
      DecSplit(d, xor, a[0], a[1..], b);
    }
  }

  /** Deciphering undoes enciphering. */
  lemma {:induction false} RoundTrip<B(!new)>(e: B -> B, d: B -> B, xor: (B, B) -> B, iv: B, ps: seq<B>)
    requires XorLaws(xor) && forall x :: d(e(x)) == x
    ensures Dec(d, xor, iv, Enc(e, xor, iv, ps)) == ps
  {
    if |ps| > 0 {
      var c := e(xor(ps[0], iv));
      RoundTrip(e, d, xor, c, ps[1..]);
      assert Enc(e, xor, iv, ps)[1..] == Enc(e, xor, c, ps[1..]);
      assert xor(d(c), iv) == ps[0];
    }
  }

  // ---------------------------------------------------------------- cbc.c

  /** The bytes left after i blocks. */
  ghost function Left(nbytes: int, bsize: int, i: nat): int {
    if i == 0 then nbytes else Left(nbytes, bsize, i - 1) - bsize
  }

  lemma {:induction false} LeftIs(nbytes: int, bsize: int, i: nat)
    ensures Left(nbytes, bsize, i) == nbytes - i * bsize
  {
    if i > 0 { LeftIs(nbytes, bsize, i - 1); }
  }

  /** When there is no whole block left, all have been done. */
  lemma {:induction false} Counted(nbytes: nat, bsize: nat, i: nat)
    requires 0 < bsize <= nbytes && i <= nbytes / bsize
    ensures Left(nbytes, bsize, i) >= 0 && (Left(nbytes, bsize, i) < bsize <==> i == nbytes / bsize)
    ensures i == nbytes / bsize ==> Left(nbytes, bsize, i) == nbytes % bsize
    ensures nbytes / bsize > 0
  {
    LeftIs(nbytes, bsize, i);
    var q, r := nbytes / bsize, nbytes % bsize;
    assert nbytes == q * bsize + r;
    if i < q { assert (i + 1) * bsize <= q * bsize; }
    assert i * bsize <= q * bsize;
  }

  /** crypto_cbc_encrypt_segment */
  method EncryptSegment<B(!new)>(fn: B -> B, xor: (B, B) -> B, src: array<B>, dst: array<B>, iv: array<B>, bsize: nat,
                                 nbytes: nat)
      returns (left: nat)
    requires XorLaws(xor) && 0 < bsize <= nbytes && src.Length == dst.Length == nbytes / bsize
    requires iv.Length == 1 && src != dst && iv != src && iv != dst
    modifies dst, iv
    ensures dst[..] == Enc(fn, xor, old(iv[0]), old(src[..])) && iv[0] == Carry(old(iv[0]), dst[..])
    ensures left == nbytes % bsize
  {
    ghost var cs := Enc(fn, xor, iv[0], src[..]);
    left := nbytes;
    var i := 0;
    Counted(nbytes, bsize, 0);
    while true
      invariant 0 <= i < src.Length && left == Left(nbytes, bsize, i)
      invariant iv[0] == if i == 0 then old(iv[0]) else cs[i - 1]
      invariant forall j :: 0 <= j < i ==> dst[j] == cs[j]
      decreases src.Length - i
    {
      EncAt(fn, xor, old(iv[0]), old(src[..]), i);
      iv[0] := xor(iv[0], src[i]);
      dst[i] := fn(iv[0]);
      iv[0] := dst[i];
      i := i + 1;
      Counted(nbytes, bsize, i);
      left := left - bsize;
      if left < bsize {
        break;
      }
    }
    assert dst[..] == cs;
  }

  /** crypto_cbc_encrypt_inplace */
  method EncryptInplace<B(!new)>(fn: B -> B, xor: (B, B) -> B, buf: array<B>, iv: array<B>, bsize: nat, nbytes: nat)
      returns (left: nat)
    requires 0 < bsize <= nbytes && buf.Length == nbytes / bsize && iv.Length == 1 && iv != buf
    modifies buf, iv
    ensures buf[..] == Enc(fn, xor, old(iv[0]), old(buf[..])) && iv[0] == Carry(old(iv[0]), buf[..])
    ensures left == nbytes % bsize
  {
    ghost var ps := buf[..];
    ghost var cs := Enc(fn, xor, iv[0], ps);
    left := nbytes;
    var last := iv[0];
    var i := 0;
    Counted(nbytes, bsize, 0);
    while true
      invariant 0 <= i < buf.Length && left == Left(nbytes, bsize, i)
      invariant last == if i == 0 then old(iv[0]) else cs[i - 1]
      invariant forall j :: 0 <= j < i ==> buf[j] == cs[j]
      invariant forall j :: i <= j < buf.Length ==> buf[j] == ps[j]
      decreases buf.Length - i
    {
      EncAt(fn, xor, old(iv[0]), ps, i);
      buf[i] := xor(buf[i], last);
      buf[i] := fn(buf[i]);
      last := buf[i];
      i := i + 1;
      Counted(nbytes, bsize, i);
      left := left - bsize;
      if left < bsize {
        break;
      }
    }
    iv[0] := last;
    assert buf[..] == cs;
  }

  /** crypto_cbc_decrypt_segment */
  method DecryptSegment<B(!new)>(fn: B -> B, xor: (B, B) -> B, src: array<B>, dst: array<B>, iv: array<B>, bsize: nat,
                                 nbytes: nat)
      returns (left: nat)
    requires 0 < bsize <= nbytes && src.Length == dst.Length == nbytes / bsize
    requires iv.Length == 1 && src != dst && iv != src && iv != dst
    modifies dst, iv
    ensures dst[..] == Dec(fn, xor, old(iv[0]), old(src[..])) && iv[0] == Carry(old(iv[0]), old(src[..]))
    ensures left == nbytes % bsize
  {
    left := nbytes;
    var last := iv[0];
    var i := 0;
    Counted(nbytes, bsize, 0);
    while true
      invariant 0 <= i < src.Length && left == Left(nbytes, bsize, i) && src[..] == old(src[..]) && iv[0] == old(iv[0])
      invariant dst[..i] == Dec(fn, xor, old(iv[0]), old(src[..]))[..i]
      invariant last == if i == 0 then iv[0] else src[i - 1]
      decreases src.Length - i
    {
      DecAt(fn, xor, old(iv[0]), old(src[..]), i);
      dst[i] := fn(src[i]);
      dst[i] := xor(dst[i], last);
      last := src[i];
      i := i + 1;
      Counted(nbytes, bsize, i);
      left := left - bsize;
      if left < bsize {
        break;
      }
    }
    iv[0] := last;
  }

  /** crypto_cbc_decrypt_inplace: from the last block to the first, so that each block still finds its predecessor. */
  method DecryptInplace<B(!new)>(fn: B -> B, xor: (B, B) -> B, buf: array<B>, iv: array<B>, bsize: nat, nbytes: nat)
      returns (left: nat)
    requires 0 < bsize <= nbytes && buf.Length == nbytes / bsize && iv.Length == 1 && iv != buf
    modifies buf, iv
    ensures buf[..] == Dec(fn, xor, old(iv[0]), old(buf[..])) && iv[0] == Carry(old(iv[0]), old(buf[..]))
    ensures left == nbytes % bsize
  {
    left := nbytes;
    ghost var cs := buf[..];
    ghost var ps := Dec(fn, xor, iv[0], cs);
    Counted(nbytes, bsize, 0);
    var first := iv[0];
    var i := buf.Length - 1;
    iv[0] := buf[i];
    while true
      invariant 0 <= i < buf.Length && left == Left(nbytes, bsize, buf.Length - 1 - i) && iv[0] == cs[|cs| - 1]
      invariant forall j :: 0 <= j <= i ==> buf[j] == cs[j]
      invariant forall j :: i < j < buf.Length ==> buf[j] == ps[j]
      decreases i
    {
      DecAt(fn, xor, first, cs, i);
      buf[i] := fn(buf[i]);
      Counted(nbytes, bsize, buf.Length - i);
      left := left - bsize;
      if left < bsize {
        break;
      }
      buf[i] := xor(buf[i], buf[i - 1]);
      i := i - 1;
    }
    buf[i] := xor(buf[i], first);
  }

  // ---------------------------------------------------------------- cipher.c

  /** cbc_process_encrypt; source and destination may be the same buffer. */
  method ProcessEncrypt<B(!new)>(fn: B -> B, xor: (B, B) -> B, dst: array<B>, src: array<B>, iv: array<B>, bsize: nat,
                                 nbytes: nat)
      returns (done: nat)
    requires XorLaws(xor) && 0 < bsize <= nbytes && src.Length == dst.Length == nbytes / bsize
    requires iv.Length == 1 && iv != src && iv != dst
    modifies dst, iv
    ensures dst[..] == Enc(fn, xor, old(iv[0]), old(src[..])) && iv[0] == Carry(old(iv[0]), dst[..])
    ensures done == nbytes - nbytes % bsize
  {
    ghost var ps := src[..];
    ghost var cs := Enc(fn, xor, iv[0], ps);
    done := 0;
    var i := 0;
    Counted(nbytes, bsize, 0);
    while true
      invariant 0 <= i < src.Length && done == nbytes - Left(nbytes, bsize, i)
      invariant iv[0] == if i == 0 then old(iv[0]) else cs[i - 1]
      invariant forall j :: 0 <= j < i ==> dst[j] == cs[j]
      invariant forall j :: i <= j < src.Length ==> src[j] == ps[j]
      decreases src.Length - i
    {
      EncAt(fn, xor, old(iv[0]), ps, i);
      iv[0] := xor(iv[0], src[i]);
      dst[i] := fn(iv[0]);
      iv[0] := dst[i];
      i := i + 1;
      Counted(nbytes, bsize, i);
      done := done + bsize;
      if done > nbytes - bsize {
        break;
      }
    }
    assert dst[..] == cs;
  }

  /** cbc_process_decrypt: forward, through a scratch block when source and destination are the same. */
  method ProcessDecrypt<B(!new)>(fn: B -> B, xor: (B, B) -> B, dst: array<B>, src: array<B>, iv: array<B>, bsize: nat,
                                 nbytes: nat)
      returns (done: nat)
    requires 0 < bsize <= nbytes && src.Length == dst.Length == nbytes / bsize && iv.Length == 1 && iv != src
    requires iv != dst
    modifies dst, iv
    ensures dst[..] == Dec(fn, xor, old(iv[0]), old(src[..])) && iv[0] == Carry(old(iv[0]), old(src[..]))
    ensures done == nbytes - nbytes % bsize
  {
    ghost var cs := src[..];
    ghost var ps := Dec(fn, xor, iv[0], cs);
    done := 0;
    var i := 0;
    Counted(nbytes, bsize, 0);
    while true
      invariant 0 <= i < src.Length && done == nbytes - Left(nbytes, bsize, i)
      invariant iv[0] == if i == 0 then old(iv[0]) else cs[i - 1]
      invariant forall j :: 0 <= j < i ==> dst[j] == ps[j]
      invariant forall j :: i <= j < src.Length ==> src[j] == cs[j]
      decreases src.Length - i
    {
      DecAt(fn, xor, old(iv[0]), cs, i);
      if src == dst {
        var buf := fn(src[i]);
        buf := xor(buf, iv[0]);
        iv[0] := src[i];
        dst[i] := buf;
      } else {
        dst[i] := fn(src[i]);
        dst[i] := xor(dst[i], iv[0]);
        iv[0] := src[i];
      }
      i := i + 1;
      Counted(nbytes, bsize, i);
      done := done + bsize;
      if done > nbytes - bsize {
        break;
      }
    }
    assert dst[..] == ps;
  }

  // ---------------------------------------------------------------- walks

  /** One step of a walk: where the blocks come from and go to, and how many bytes there are. */
  datatype Chunk<B> = Chunk(src: array<B>, dst: array<B>, nbytes: nat)

  /** Each step has whole blocks; different steps and the chaining block do not share memory. */
  ghost predicate Walkable<B(!new)>(chunks: seq<Chunk<B>>, iv: array<B>, bsize: nat) {
    && iv.Length == 1 && bsize > 0
    && (forall i :: 0 <= i < |chunks| ==>
          && bsize <= chunks[i].nbytes && chunks[i].src.Length == chunks[i].dst.Length == chunks[i].nbytes / bsize
          && iv != chunks[i].src && iv != chunks[i].dst)
    && (forall i, j :: 0 <= i < |chunks| && 0 <= j < |chunks| && i != j ==>
          chunks[i].dst != chunks[j].dst && chunks[i].dst != chunks[j].src)
  }

  ghost function Memory<B>(chunks: seq<Chunk<B>>): set<array<B>> { set i | 0 <= i < |chunks| :: chunks[i].dst }

  /** What the first k steps read, and what they have written, one after the other. */
  ghost function Sources<B>(chunks: seq<Chunk<B>>, k: nat): seq<B>
    requires k <= |chunks|
    reads set i | 0 <= i < |chunks| :: chunks[i].src
  {
    if k == 0 then [] else Sources(chunks, k - 1) + chunks[k - 1].src[..]
  }

  ghost function Outputs<B>(chunks: seq<Chunk<B>>, k: nat): seq<B>
    requires k <= |chunks|
    reads set i | 0 <= i < |chunks| :: chunks[i].dst
  {
    if k == 0 then [] else Outputs(chunks, k - 1) + chunks[k - 1].dst[..]
  }

  ghost function Texts<B>(chunks: seq<Chunk<B>>, k: nat): (t: seq<seq<B>>)
    requires k <= |chunks|
    reads set i | 0 <= i < |chunks| :: chunks[i].src
    ensures |t| == k && forall i :: 0 <= i < k ==> t[i] == chunks[i].src[..]
  {
    if k == 0 then [] else Texts(chunks, k - 1) + [chunks[k - 1].src[..]]
  }

  /** What was read, from the texts of the steps at the start. */
  ghost function Flat<B>(texts: seq<seq<B>>, k: nat): seq<B>
    requires k <= |texts|
  {
    if k == 0 then [] else Flat(texts, k - 1) + texts[k - 1]
  }

  lemma {:induction false} FlatIs<B>(chunks: seq<Chunk<B>>, texts: seq<seq<B>>, k: nat)
    requires k <= |texts| == |chunks| && forall i :: 0 <= i < k ==> texts[i] == chunks[i].src[..]
    ensures Flat(texts, k) == Sources(chunks, k)
  {
    if k > 0 { FlatIs(chunks, texts, k - 1); }
  }

  lemma {:induction false} FlatOut<B>(chunks: seq<Chunk<B>>, outs: seq<seq<B>>, k: nat)
    requires k <= |outs| <= |chunks| && forall i :: 0 <= i < k ==> outs[i] == chunks[i].dst[..]
    ensures Flat(outs, k) == Outputs(chunks, k)
  {
    if k > 0 { FlatOut(chunks, outs, k - 1); }
  }

  lemma {:induction false} FlatMore<B>(outs: seq<seq<B>>, more: seq<B>, k: nat)
    requires k <= |outs|
    ensures Flat(outs + [more], k) == Flat(outs, k)
  {
    if k > 0 { FlatMore(outs, more, k - 1); }
  }

  /** One step of crypto_cbc_encrypt */
  method EncryptStep<B(!new)>(fn: B -> B, xor: (B, B) -> B, chunk: Chunk<B>, iv: array<B>, bsize: nat)
    requires XorLaws(xor) && Walkable([chunk], iv, bsize)
    modifies chunk.dst, iv
    ensures chunk.dst[..] == Enc(fn, xor, old(iv[0]), old(chunk.src[..])) && iv[0] == Carry(old(iv[0]), chunk.dst[..])
  {
    assert [chunk][0] == chunk;
    var left;
    if chunk.src == chunk.dst {
      left := EncryptInplace(fn, xor, chunk.src, iv, bsize, chunk.nbytes);
    } else {
      left := EncryptSegment(fn, xor, chunk.src, chunk.dst, iv, bsize, chunk.nbytes);
    }
  }

  /** One step of crypto_cbc_decrypt */
  method DecryptStep<B(!new)>(fn: B -> B, xor: (B, B) -> B, chunk: Chunk<B>, iv: array<B>, bsize: nat)
    requires Walkable([chunk], iv, bsize)
    modifies chunk.dst, iv
    ensures chunk.dst[..] == Dec(fn, xor, old(iv[0]), old(chunk.src[..]))
    ensures iv[0] == Carry(old(iv[0]), old(chunk.src[..]))
  {
    assert [chunk][0] == chunk;
    var left;
    if chunk.src == chunk.dst {
      left := DecryptInplace(fn, xor, chunk.src, iv, bsize, chunk.nbytes);
    } else {
      left := DecryptSegment(fn, xor, chunk.src, chunk.dst, iv, bsize, chunk.nbytes);
    }
  }

  /** One more step of the walk. */
  lemma {:induction false} EncMore<B>(e: B -> B, xor: (B, B) -> B, iv: B, texts: seq<seq<B>>, outs: seq<seq<B>>, k: nat,
                                      out: seq<B>)
    requires k < |texts| && |outs| == k && Flat(outs, k) == Enc(e, xor, iv, Flat(texts, k))
    requires out == Enc(e, xor, Carry(iv, Flat(outs, k)), texts[k])
    ensures Flat(outs + [out], k + 1) == Enc(e, xor, iv, Flat(texts, k + 1))
    ensures Carry(iv, Flat(outs + [out], k + 1)) == Carry(Carry(iv, Flat(outs, k)), out)
  {
    EncSplit(e, xor, iv, Flat(texts, k), texts[k]);
    CarryConcat(iv, Flat(outs, k), out);
    FlatMore(outs, out, k);
  }

  lemma {:induction false} DecMore<B>(d: B -> B, xor: (B, B) -> B, iv: B, texts: seq<seq<B>>, outs: seq<seq<B>>, k: nat,
                                      out: seq<B>)
    requires k < |texts| && |outs| == k && Flat(outs, k) == Dec(d, xor, iv, Flat(texts, k))
    requires out == Dec(d, xor, Carry(iv, Flat(texts, k)), texts[k])
    ensures Flat(outs + [out], k + 1) == Dec(d, xor, iv, Flat(texts, k + 1))
    ensures Carry(iv, Flat(texts, k + 1)) == Carry(Carry(iv, Flat(texts, k)), texts[k])
  {
    DecSplit(d, xor, iv, Flat(texts, k), texts[k]);
    CarryConcat(iv, Flat(texts, k), texts[k]);
    FlatMore(outs, out, k);
  }

  /** crypto_cbc_encrypt: any split into steps, each in place or not, gives flat CBC. */
  method Encrypt<B(!new)>(fn: B -> B, xor: (B, B) -> B, chunks: seq<Chunk<B>>, iv: array<B>, bsize: nat)
    requires XorLaws(xor) && Walkable(chunks, iv, bsize)
    modifies Memory(chunks), iv
    ensures Outputs(chunks, |chunks|) == Enc(fn, xor, old(iv[0]), old(Sources(chunks, |chunks|)))
    ensures iv[0] == Carry(old(iv[0]), Outputs(chunks, |chunks|))
  {
    ghost var texts := Texts(chunks, |chunks|);
    ghost var iv0 := iv[0];
    ghost var outs: seq<seq<B>> := [];
    FlatIs(chunks, texts, |chunks|);
    for k := 0 to |chunks|
      invariant |outs| == k && (forall i :: 0 <= i < k ==> chunks[i].dst[..] == outs[i])
      invariant forall i :: k <= i < |chunks| ==> chunks[i].src[..] == texts[i]
      invariant Flat(outs, k) == Enc(fn, xor, iv0, Flat(texts, k)) && iv[0] == Carry(iv0, Flat(outs, k))
    {
      EncryptStep(fn, xor, chunks[k], iv, bsize);
      EncMore(fn, xor, iv0, texts, outs, k, chunks[k].dst[..]);
      outs := outs + [chunks[k].dst[..]];
    }
    FlatOut(chunks, outs, |chunks|);
  }

  /** crypto_cbc_decrypt */
  method Decrypt<B(!new)>(fn: B -> B, xor: (B, B) -> B, chunks: seq<Chunk<B>>, iv: array<B>, bsize: nat)
    requires Walkable(chunks, iv, bsize)
    modifies Memory(chunks), iv
    ensures Outputs(chunks, |chunks|) == Dec(fn, xor, old(iv[0]), old(Sources(chunks, |chunks|)))
    ensures iv[0] == Carry(old(iv[0]), old(Sources(chunks, |chunks|)))
  {
    ghost var texts := Texts(chunks, |chunks|);
    ghost var iv0 := iv[0];
    ghost var outs: seq<seq<B>> := [];
    FlatIs(chunks, texts, |chunks|);
    for k := 0 to |chunks|
      invariant |outs| == k && (forall i :: 0 <= i < k ==> chunks[i].dst[..] == outs[i])
      invariant forall i :: k <= i < |chunks| ==> chunks[i].src[..] == texts[i]
      invariant Flat(outs, k) == Dec(fn, xor, iv0, Flat(texts, k)) && iv[0] == Carry(iv0, Flat(texts, k))
    {
      DecryptStep(fn, xor, chunks[k], iv, bsize);
      DecMore(fn, xor, iv0, texts, outs, k, chunks[k].dst[..]);
      outs := outs + [chunks[k].dst[..]];
    }
    FlatOut(chunks, outs, |chunks|);
  }
}
